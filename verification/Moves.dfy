/**
 Two times per object: content by modification time, placement by move time, but one recorded time for both
 (client/cmd/keepass-deltasync/syncop.go). When an unsynced local change reaches the server, exactly, and
 the one case in which it never does: a move overtaken by an edit made elsewhere.
 */
module Moves {
  import opened Basics
  import opened Tracking
  import opened GroupTree
  import opened PushSide
  import opened PullSide
  import opened Server
  import opened Devices

  // ---------------------------------------------------------------- which objects a push sends

  lemma {:induction false} OthersUntouched(p: Progress, items: seq<Item>, u: Uuid)
    requires forall i | 0 <= i < |items| :: items[i].uuid != u
    ensures forall t :: AtLeast(Run(p, items).states, u, t) <==> AtLeast(p.states, u, t)
  {
    if items != [] {
      OthersUntouched(p, items[..|items| - 1], u);
    }
  }

  lemma {:induction false} SentOnlyFrom(p: Progress, items: seq<Item>, u: Uuid)
    requires forall i | 0 <= i < |items| :: items[i].uuid != u
    requires forall it | it in p.sent :: it.uuid != u
    ensures forall it | it in Run(p, items).sent :: it.uuid != u
  {
    if items != [] {
      SentOnlyFrom(p, items[..|items| - 1], u);
    }
  }

  /** No other item of the push is for the same object. */
  predicate OnlyOne(items: seq<Item>, i: nat)
    requires i < |items|
  {
    forall j | 0 <= j < |items| && j != i :: items[j].uuid != items[i].uuid
  }

  /** Each object of a push that goes through is sent exactly when the recorded time is before its trigger. */
  lemma {:induction false} SentIff(p: Progress, items: seq<Item>, i: nat)
    requires i < |items| && OnlyOne(items, i) && !items[i].kind.GroupTombstone? && !Run(p, items).failed
    requires forall it | it in p.sent :: it.uuid != items[i].uuid
    ensures items[i] in Run(p, items).sent <==> !AtLeast(p.states, items[i].uuid, items[i].trigger)
    ensures items[i] !in Run(p, items).sent ==> forall it | it in Run(p, items).sent :: it.uuid != items[i].uuid
  {
    var n := |items| - 1;
    var front := items[..n];
    if i < n {
      assert forall j | 0 <= j < n :: front[j] == items[j];
      SentIff(p, front, i);
      assert items[n].uuid != items[i].uuid;
    } else {
      OthersUntouched(p, front, items[n].uuid);
      SentOnlyFrom(p, front, items[n].uuid);
    }
  }

  /** When an item has been sent, everything before it was dealt with. */
  lemma {:induction false} SentAfter(p: Progress, items: seq<Item>, i: nat)
    requires i < |items| && OnlyOne(items, i) && (forall it | it in p.sent :: it.uuid != items[i].uuid)
    requires items[i] in Run(p, items).sent
    ensures !Run(p, items[..i]).failed && Run(p, items[..i]).sent <= Run(p, items).sent
    ensures forall t :: AtLeast(Run(p, items[..i]).states, items[i].uuid, t) <==> AtLeast(p.states, items[i].uuid, t)
  {
    var front := items[..i];
    assert forall j | 0 <= j < i :: front[j] == items[j];
    OthersUntouched(p, front, items[i].uuid);
    SentOnlyFrom(p, front, items[i].uuid);
    SentGrows(p, items, i);
    if Run(p, front).failed {
      RunStaysFailed(p, items, i);
    }
  }

  lemma {:induction false} SentGrows(p: Progress, items: seq<Item>, i: nat)
    requires i <= |items|
    ensures Run(p, items[..i]).sent <= Run(p, items).sent
  {
    if i < |items| {
      SentGrows(p, items[..|items| - 1], i);
      assert items[..|items| - 1][..i] == items[..i];
    } else {
      assert items[..i] == items;
    }
  }

  /** A push that goes through sends all its group tombstones. */
  lemma {:induction false} TombstoneIsSent(p: Progress, items: seq<Item>, i: nat)
    requires i < |items| && items[i].kind.GroupTombstone? && !Run(p, items).failed
    ensures items[i] in Run(p, items).sent
  {
    var n := |items| - 1;
    if i < n {
      TombstoneIsSent(p, items[..n], i);
    }
  }

  lemma {:induction false} EnoughAnswers(p: Progress, items: seq<Item>)
    requires !p.failed && |p.replies| >= |items| && forall r | r in p.replies :: r.Accepted?
    ensures var q := Run(p, items);
            !q.failed && |q.replies| >= |p.replies| - |items| && forall r | r in q.replies :: r.Accepted?
  {
    if items != [] {
      var n := |items| - 1;
      EnoughAnswers(p, items[..n]);
      var q := Run(p, items[..n]);
      assert q.replies[0] in q.replies;
      assert forall r | r in q.replies[1..] :: r in q.replies;
    }
  }

  predicate Sends(sent: seq<Item>, u: Uuid) {
    exists it :: it in sent && it.uuid == u
  }

  /** `u` is not a known group that the file lacks. */
  predicate NotDoomed(dev: Dev, u: Uuid) {
    u in dev.tracked.known ==> u in Folders(dev.file)
  }

  lemma ItemIsAlone(dev: Dev, now: Time, i: nat)
    requires i < |ItemsOf(dev, now)| && !ItemsOf(dev, now)[i].kind.GroupTombstone?
    requires NotDoomed(dev, ItemsOf(dev, now)[i].uuid)
    ensures OnlyOne(ItemsOf(dev, now), i)
  {
    var items := ItemsOf(dev, now);
    forall j | 0 <= j < |items| && j != i ensures items[j].uuid != items[i].uuid {
      FileItemAt(dev, now, j);
      if !items[j].kind.GroupTombstone? {
        if i < j { ItemsDiffer(dev, now, i, j); } else { ItemsDiffer(dev, now, j, i); }
      }
    }
  }

  /** A push that goes through uploads an object exactly when its recorded time is before its trigger. */
  lemma PushSendsIff(dev: Dev, log: seq<Version>, answers: nat, now: Time, u: Uuid)
    requires u in dev.file && NotDoomed(dev, u) && !PushedDev(dev, log, answers, now).failed
    ensures Sends(PushedDev(dev, log, answers, now).sent, u) <==> !AtLeast(dev.tracked.states, u, Trigger(dev.file[u]))
  {
    var items, p := ItemsOf(dev, now), Start(dev.tracked.states, Consecutive(|log|, answers));
    PushIsOneRun(dev, now, Consecutive(|log|, answers));
    var i := ItemOf(dev, now, u);
    FileItemAt(dev, now, i);
    ItemIsAlone(dev, now, i);
    SentIff(p, items, i);
  }

  /** What is neither in the file nor a group it has lost is not sent. */
  lemma PushSendsNothingElse(dev: Dev, log: seq<Version>, answers: nat, now: Time, u: Uuid)
    requires u !in dev.file && u !in dev.tracked.known
    ensures !Sends(PushedDev(dev, log, answers, now).sent, u)
  {
    SentIsSendable(dev, log, answers, now);
  }

  lemma PushGoesThrough(dev: Dev, log: seq<Version>, answers: nat, now: Time)
    requires answers >= |ItemsOf(dev, now)|
    ensures !PushedDev(dev, log, answers, now).failed
  {
    PushIsOneRun(dev, now, Consecutive(|log|, answers));
    EnoughAnswers(Start(dev.tracked.states, Consecutive(|log|, answers)), ItemsOf(dev, now));
  }

  /** The server's numbers come back in order. */
  lemma {:induction false} RunCounts(p: Progress, items: seq<Item>, base: nat, answers: nat)
    requires p.sent == [] && p.maxSeq == 0 && p.replies == Consecutive(base, answers)
    ensures var q := Run(p, items);
            && |q.sent| <= answers && q.replies == Consecutive(base + |q.sent|, answers - |q.sent|)
            && q.maxSeq == if q.sent == [] then 0 else base + |q.sent|
  {
    if items != [] {
      var n := |items| - 1;
      RunCounts(p, items[..n], base, answers);
      var q := Run(p, items[..n]);
      var left := answers - |q.sent|;
      if left > 0 {
        assert Consecutive(base + |q.sent|, left)[1..] == Consecutive(base + |q.sent| + 1, left - 1);
      }
    }
  }

  /** What was not sent is recorded as before. */
  lemma {:induction false} UnsentUntouched(p: Progress, items: seq<Item>, u: Uuid)
    requires p.sent == []
    ensures !Sends(Run(p, items).sent, u) ==>
              forall t :: AtLeast(Run(p, items).states, u, t) <==> AtLeast(p.states, u, t)
  {
    if items != [] {
      var n := |items| - 1;
      UnsentUntouched(p, items[..n], u);
      var q, r := Run(p, items[..n]), Run(p, items);
      assert r == Step(q, items[n]);
      if !Sends(r.sent, u) {
        forall it | it in q.sent ensures it.uuid != u {
          assert it in r.sent;
        }
        if r.sent != q.sent {
          assert items[n] in r.sent;
        }
      }
    }
  }

  /** What a push, complete or not, leaves in the tracking state. */
  lemma PushTracks(dev: Dev, log: seq<Version>, answers: nat, now: Time, u: Uuid)
    ensures var r := PushedDev(dev, log, answers, now);
            && (!Sends(r.sent, u) ==> forall t :: AtLeast(r.tracked.states, u, t) <==> AtLeast(dev.tracked.states, u, t))
            && Max(|log|, r.maxSeq) == |log| + |r.sent|
            && (r.tracked.known == dev.tracked.known || r.tracked.known == SortedSeq(Folders(dev.file)))
            && (!r.failed && !Refused(dev.tracked.known, ExportOf(dev)) ==> r.tracked.known == SortedSeq(Folders(dev.file)))
  {
    var replies := Consecutive(|log|, answers);
    var p, items := Start(dev.tracked.states, replies), ItemsOf(dev, now);
    PushIsOneRun(dev, now, replies);
    UnsentUntouched(p, items, u);
    RunCounts(p, items, |log|, answers);
  }

  /** After the uploads the server's newest version of an object is what was sent of it, else what it was before. */
  lemma {:induction false} NewestAfterUploads(log: seq<Version>, d: Device, file: Local, sent: seq<Item>, u: Uuid, o: Obj)
    requires Sendable(file, sent)
    requires forall it | it in sent && it.uuid == u :: SentObj(file, it) == o
    ensures var log' := log + Uploaded(d, file, sent);
            if Sends(sent, u) then InLog(log', u) && Latest(log', u) == o && Newest(log', u).value >= |log|
            else Newest(log', u) == Newest(log, u) && (InLog(log, u) ==> Latest(log', u) == Latest(log, u))
  {
    if sent == [] {
      assert log + Uploaded(d, file, sent) == log;
    } else {
      var n := |sent| - 1;
      OneMoreUploaded(d, file, sent, log);
      var front := log + Uploaded(d, file, sent[..n]);
      var v := Version(d, sent[n].uuid, SentObj(file, sent[n]));
      NewestAfterUploads(log, d, file, sent[..n], u, o);
      NewestAppend(front, v, u);
      assert Sends(sent, u) <==> Sends(sent[..n], u) || sent[n].uuid == u by {
        assert sent == sent[..n] + [sent[n]];
      }
    }
  }

  // ---------------------------------------------------------------- one cycle on one object

  predicate Cycles(dev: Dev, log: seq<Version>, answers: nat, now: Time) {
    0 <= dev.tracked.lastSeq && answers >= |ItemsOf(PulledDev(dev, log), now)|
  }

  /** The local object is on the server as it is, to the second. */
  ghost predicate Agrees(file: Local, log: seq<Version>, u: Uuid) {
    u in file && InLog(log, u) && Latest(log, u) == Stamped(file[u])
  }

  /** What is uploaded of an object that is no doomed group is the object. */
  lemma SentAsItIs(dev: Dev, log: seq<Version>, answers: nat, now: Time, u: Uuid)
    requires NotDoomed(dev, u) && u in dev.file
    ensures Sendable(dev.file, PushedDev(dev, log, answers, now).sent)
    ensures forall it | it in PushedDev(dev, log, answers, now).sent && it.uuid == u ::
              SentObj(dev.file, it) == Stamped(dev.file[u])
  {
    SentIsSendable(dev, log, answers, now);
  }

  /** What a cycle that goes through does with one object. */
  lemma CycleOnOne(dev: Dev, log: seq<Version>, d: Device, answers: nat, now: Time, u: Uuid)
    requires Cycles(dev, log, answers, now) && u in PulledDev(dev, log).file && NotDoomed(PulledDev(dev, log), u)
    ensures var p, log' := PulledDev(dev, log), LogAfter(dev, log, d, answers, now);
            var due := !AtLeast(p.tracked.states, u, Trigger(p.file[u]));
            && (Agrees(p.file, log', u) <==> due || Agrees(p.file, log, u))
            && (!due ==> Newest(log', u) == Newest(log, u))
            && (!due && InLog(log, u) ==> Latest(log', u) == Latest(log, u))
  {
    var p := PulledDev(dev, log);
    PushGoesThrough(p, log, answers, now);
    PushSendsIff(p, log, answers, now, u);
    SentAsItIs(p, log, answers, now, u);
    NewestAfterUploads(log, d, p.file, PushedDev(p, log, answers, now).sent, u, Stamped(p.file[u]));
  }

  // ---------------------------------------------------------------- a local change meets one from elsewhere

  /** Both sides have a live version of `u`, and the server's arrives in this pull. */
  ghost predicate Meets(dev: Dev, log: seq<Version>, u: Uuid) {
    && u in dev.file && dev.file[u].Live?
    && InLog(log, u) && Newest(log, u).value >= dev.tracked.lastSeq >= 0 && Latest(log, u).Live?
  }

  /** The server's edit is no older than the local change, and than its own last move. */
  ghost predicate Overtaken(mine: Obj, theirs: Obj) {
    mine.Live? && theirs.Live? && Trigger(mine) <= theirs.mod && theirs.moved <= theirs.mod
  }

  /** The server's version as the pull stages it. */
  function Arriving(dev: Dev, log: seq<Version>, u: Uuid): Obj
    requires Newest(log, u).Some? && dev.tracked.lastSeq >= 0
  {
    Filed(Latest(log, u), StagedFolders(dev.file, log, dev.tracked.lastSeq))
  }

  lemma PulledObject(dev: Dev, log: seq<Version>, u: Uuid)
    requires Meets(dev, log, u)
    ensures u in PulledDev(dev, log).file && PulledDev(dev, log).file[u] == Merge(dev.file[u], Arriving(dev, log, u))
  {}

  /**
   An unsynced local change is uploaded by the next cycle if and only if the server's version it meets has
   not overtaken it. The pull records the server's modification time, so a change that is not later than
   that no longer counts as news, be it an edit the merge discards or a move the merge keeps.
   */
  lemma UploadedUnlessOvertaken(dev: Dev, log: seq<Version>, u: Uuid)
    requires WholeLog(log) && Meets(dev, log, u)
    requires !AtLeast(dev.tracked.states, u, Trigger(dev.file[u]))
    ensures var p := PulledDev(dev, log);
            !AtLeast(p.tracked.states, u, Trigger(p.file[u])) <==> !Overtaken(dev.file[u], Latest(log, u))
  {
    var mine, theirs := dev.file[u], Latest(log, u);
    PullReads(dev, log, true);
    PulledObject(dev, log, u);
    var p := PulledDev(dev, log);
    var t := Trigger(p.file[u]);
    assert AtLeast(p.tracked.states, u, t) <==> AtLeast(dev.tracked.states, u, t) || t <= theirs.mod;
    assert t == LaterTime(Trigger(mine), Trigger(theirs));
  }

  /**
   So after the cycle the two sides agree on the object, unless it was overtaken and the merge took something
   from the local side: a later move, or the content at an equal modification time; or it could not be filed
   where the server has it.
   */
  lemma AgreeUnlessOvertaken(dev: Dev, log: seq<Version>, d: Device, answers: nat, now: Time, u: Uuid)
    requires WholeLog(log) && Meets(dev, log, u) && Cycles(dev, log, answers, now)
    requires NotDoomed(PulledDev(dev, log), u)
    requires !AtLeast(dev.tracked.states, u, Trigger(dev.file[u]))
    ensures var mine, theirs := dev.file[u], Latest(log, u);
            u in PulledDev(dev, log).file
            && (Agrees(PulledDev(dev, log).file, LogAfter(dev, log, d, answers, now), u)
                <==> !Overtaken(mine, theirs) || Merge(mine, Arriving(dev, log, u)) == theirs)
  {
    PulledObject(dev, log, u);
    UploadedUnlessOvertaken(dev, log, u);
    CycleOnOne(dev, log, d, answers, now, u);
    FloorIsLastSecond(Latest(log, u).mod, Latest(log, u).mod);
  }

  /** And once the recorded time has reached the trigger, no later cycle uploads the object, unless something new comes. */
  lemma SettledStaysSettled(dev: Dev, log: seq<Version>, d: Device, answers: nat, now: Time, u: Uuid)
    requires Cycles(dev, log, answers, now) && u in dev.file && NotDoomed(dev, u)
    requires AtLeast(dev.tracked.states, u, Trigger(dev.file[u]))
    requires InLog(log, u) ==> Newest(log, u).value < dev.tracked.lastSeq
    ensures var p, log' := PulledDev(dev, log), LogAfter(dev, log, d, answers, now);
            && u in p.file && p.file[u] == dev.file[u] && NotDoomed(p, u)
            && AtLeast(p.tracked.states, u, Trigger(p.file[u]))
            && Newest(log', u) == Newest(log, u)
            && (InLog(log, u) ==> Latest(log', u) == Latest(log, u))
            && (Agrees(p.file, log', u) <==> Agrees(dev.file, log, u))
  {
    var p := PulledDev(dev, log);
    PullReadsSeconds(dev, log, true);
    KnownAfterPull(dev, log, u);
    assert p.file[u] == dev.file[u];
    CycleOnOne(dev, log, d, answers, now, u);
  }

  // A group, an entry moved into it, and the server's versions of both.
  const BANK := Live(5 * SECOND, Header("Bank", "", 48, 0), 5 * SECOND, None)
  const OLD := Live(10 * SECOND, Fragment("old"), 0, None)
  const MOVED := Live(10 * SECOND, Fragment("old"), 20 * SECOND, Some(2))
  const NEW := Live(30 * SECOND, Fragment("new"), 0, None)

  /**
   The witness. A device moves an entry from Root into a group at second 20; another edited the entry at second
   30 and synced first. The device keeps its move, the server never learns of it.
   */
  lemma OvertakenMoveIsNeverUploaded(dev: Dev, log: seq<Version>, d: Device, answers: nat, now: Time)
    requires dev.file == map[2 := BANK, 7 := MOVED]
    requires dev.tracked == Tracked(2, map[2 := At(5 * SECOND), 7 := At(10 * SECOND)], [2])
    requires log == [Version(d, 2, BANK), Version(d, 7, OLD), Version(d + 1, 7, NEW)]
    requires Cycles(dev, log, answers, now)
    ensures var p, log' := PulledDev(dev, log), LogAfter(dev, log, d, answers, now);
            && 2 in Folders(p.file)
            && 7 in p.file && p.file[7] == Live(30 * SECOND, Fragment("new"), 20 * SECOND, Some(2))
            && InLog(log', 7) && Latest(log', 7) == NEW
  {
    WitnessLog(log, d);
    WitnessPull(dev, log, d);
    UploadedUnlessOvertaken(dev, log, 7);
    CycleOnOne(dev, log, d, answers, now, 7);
  }

  lemma WitnessPull(dev: Dev, log: seq<Version>, d: Device)
    requires dev.file == map[2 := BANK, 7 := MOVED]
    requires dev.tracked == Tracked(2, map[2 := At(5 * SECOND), 7 := At(10 * SECOND)], [2])
    requires log == [Version(d, 2, BANK), Version(d, 7, OLD), Version(d + 1, 7, NEW)]
    ensures Meets(dev, log, 7) && Latest(log, 7) == NEW && Overtaken(dev.file[7], NEW)
    ensures var p := PulledDev(dev, log);
            && 2 in Folders(p.file) && 7 in p.file && NotDoomed(p, 7)
            && p.file[7] == Live(30 * SECOND, Fragment("new"), 20 * SECOND, Some(2))
  {
    WitnessLog(log, d);
    WitnessMeets(dev, log, d);
    KnownAfterPull(dev, log, 7);
    KeptGroup(dev, log);
  }

  lemma WitnessMeets(dev: Dev, log: seq<Version>, d: Device)
    requires dev.file == map[2 := BANK, 7 := MOVED] && dev.tracked.lastSeq == 2
    requires log == [Version(d, 2, BANK), Version(d, 7, OLD), Version(d + 1, 7, NEW)]
    ensures Meets(dev, log, 7) && Latest(log, 7) == NEW && Overtaken(dev.file[7], NEW)
    ensures 7 in PulledDev(dev, log).file
    ensures PulledDev(dev, log).file[7] == Live(30 * SECOND, Fragment("new"), 20 * SECOND, Some(2))
  {
    WitnessLog(log, d);
    PulledObject(dev, log, 7);
  }

  lemma KeptGroup(dev: Dev, log: seq<Version>)
    requires dev.tracked.lastSeq == 2 && 2 in dev.file && IsFolder(dev.file[2])
    requires Newest(log, 2).None? || Newest(log, 2).value < 2
    ensures 2 in Folders(PulledDev(dev, log).file)
  {}

  lemma WitnessLog(log: seq<Version>, d: Device)
    requires log == [Version(d, 2, BANK), Version(d, 7, OLD), Version(d + 1, 7, NEW)]
    ensures Newest(log, 7) == Some(2) && WholeLog(log) && (Newest(log, 2).None? || Newest(log, 2).value < 2)
    ensures Offered(log, 2) == {2}
  {
    assert forall i | 0 <= i < 3 :: log[i].obj.mod in {5 * SECOND, 10 * SECOND, 30 * SECOND};
  }
}
