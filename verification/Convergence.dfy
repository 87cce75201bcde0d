/**
 Convergence of whole databases, groups and placement included. Devices edit, create, rename and move entries and
 groups; cycles fail at any point. See ContentConvergence for what holds without the assumptions made here.
 */
module Convergence {
  import opened Basics
  import opened Tracking
  import opened GroupTree
  import opened PushSide
  import opened PullSide
  import opened Server
  import opened Devices
  import opened Moves

  // ---------------------------------------------------------------- hypotheses

  /**
   No two contents share a UUID and a modification time, and a later modification is never filed by an earlier
   move: a move also raises the modification time. Objects are filed in groups, and no group is deleted.
   */
  ghost predicate Orderly(content: (Uuid, Time) -> Obj) {
    && (forall u, t :: content(u, t).mod == t)
    && (forall u, t :: content(u, t).Live? ==> content(u, t).moved <= t)
    && (forall u, s, t :: s < t && content(u, s).Live? && content(u, t).Live? ==>
          content(u, s).moved <= content(u, t).moved)
    && (forall u, s, t :: IsFolder(content(u, s)) ==> IsFolder(content(u, t)))
    && (forall u, t :: content(u, t).Live? && content(u, t).place.Some? ==> IsFolder(content(content(u, t).place.value, t)))
  }

  /** The version made of an object at a time, in whole seconds. */
  ghost predicate Genuine(content: (Uuid, Time) -> Obj, u: Uuid, o: Obj) {
    o == content(u, o.mod) && Whole(o.mod)
  }

  ghost predicate GenuineFile(content: (Uuid, Time) -> Obj, file: Local) {
    forall u | u in file :: Genuine(content, u, file[u])
  }

  ghost predicate GenuineLog(content: (Uuid, Time) -> Obj, log: seq<Version>) {
    forall i | 0 <= i < |log| :: Genuine(content, log[i].uuid, log[i].obj)
  }

  /** Everything is filed in something the file has. */
  ghost predicate Closed(file: Local) {
    forall u | u in file && file[u].Live? && file[u].place.Some? :: file[u].place.value in file
  }

  /**
   An edit is genuine, strictly raises the local modification time, and files the object in a group the device
   has. The groups that a sync exports form a tree.
   */
  ghost predicate Allowed(w: World, e: Event, content: (Uuid, Time) -> Obj)
    requires Tidy(w)
  {
    && Has(w, e.d) && w.devs[e.d] in w.devs
    && match e
       case Edit(d, u, o) =>
         && Genuine(content, u, o) && (u in w.devs[d].file ==> w.devs[d].file[u].mod < o.mod)
         && (o.Live? && o.place.Some? ==> o.place.value in w.devs[d].file)
       case Drop(_, _, _) => false
       case PullFails(_, _) => true
       case Sync(d, _, _, _) => IsTree(PulledDev(w.devs[d], w.log).file)
  }

  lemma MergeOfGenuine(content: (Uuid, Time) -> Obj, u: Uuid, a: Obj, b: Obj)
    requires Orderly(content) && Genuine(content, u, a) && Genuine(content, u, b)
    ensures Merge(a, b) == (if b.mod > a.mod then b else a)
  {}

  // ---------------------------------------------------------------- levels

  function ServerMap(log: seq<Version>): Local {
    map u | u in (set v | v in log :: v.uuid) && Newest(log, u).Some? :: Latest(log, u)
  }

  /** The tracking map knows exactly as much about each object as the server's newest version says. */
  ghost predicate Level(states: States, log: seq<Version>) {
    forall u, t :: AtLeast(states, u, t) <==> InLog(log, u) && t <= Latest(log, u).mod
  }

  /** The local copy of everything on the server is at least as recent. */
  ghost predicate Ahead(file: Local, log: seq<Version>) {
    forall u | InLog(log, u) :: u in file && Latest(log, u).mod <= file[u].mod
  }

  ghost predicate Rising(log: seq<Version>) {
    forall i, j :: 0 <= i < j < |log| && log[i].uuid == log[j].uuid ==> log[i].obj.mod < log[j].obj.mod
  }

  /** A longer log has at least as recent a version of everything, and keeps what it has not overtaken. */
  lemma LogGrows(log: seq<Version>, log': seq<Version>, u: Uuid)
    requires log <= log' && Rising(log')
    ensures InLog(log, u) ==> InLog(log', u) && Latest(log, u).mod <= Latest(log', u).mod
    ensures InLog(log', u) && Newest(log', u).value < |log| ==> Newest(log, u) == Newest(log', u)
  {
    var n, n' := Newest(log, u), Newest(log', u);
    if n.Some? {
      assert log'[n.value] == log[n.value];
    }
    if n'.Some? && n'.value < |log| {
      assert log[n'.value] == log'[n'.value];
      assert log'[n.value] == log[n.value];
    }
  }

  // ---------------------------------------------------------------- the pull half

  ghost predicate Covered(dev: Dev, log: seq<Version>) {
    forall u | InLog(log, u) && Newest(log, u).value < dev.tracked.lastSeq ::
      && u in dev.file && Latest(log, u).mod <= dev.file[u].mod
      && AtLeast(dev.tracked.states, u, Latest(log, u).mod)
  }

  ghost predicate Bounded(states: States, log: seq<Version>) {
    forall u, t :: AtLeast(states, u, t) ==> InLog(log, u) && t <= Latest(log, u).mod
  }

  lemma GenuineIsWhole(content: (Uuid, Time) -> Obj, log: seq<Version>)
    requires GenuineLog(content, log)
    ensures WholeLog(log)
  {}

  /** Everything on the server is filed in something the server has. */
  ghost predicate PlacesCovered(log: seq<Version>) {
    forall i | 0 <= i < |log| :: PlaceCovered(log, log[i].obj)
  }

  ghost predicate PlaceCovered(log: seq<Version>, o: Obj) {
    o.Live? && o.place.Some? ==> InLog(log, o.place.value)
  }

  /** What arrives is filed where the server has it: the staging database always has the group. */
  lemma PlacesResolve(dev: Dev, log: seq<Version>, content: (Uuid, Time) -> Obj, i: nat)
    requires Orderly(content) && GenuineLog(content, log) && GenuineFile(content, dev.file)
    requires 0 <= dev.tracked.lastSeq && Covered(dev, log) && PlacesCovered(log)
    requires i in Offered(log, dev.tracked.lastSeq)
    ensures Filed(log[i].obj, StagedFolders(dev.file, log, dev.tracked.lastSeq)) == log[i].obj
  {
    var since, o := dev.tracked.lastSeq, log[i].obj;
    if o.Live? && o.place.Some? {
      var p := o.place.value;
      assert PlaceCovered(log, log[i].obj);
      var n := Newest(log, p).value;
      assert Genuine(content, log[i].uuid, o) && Genuine(content, p, log[n].obj);
      assert IsFolder(content(p, o.mod)) && IsFolder(log[n].obj);
      if n >= since {
        assert n in Offered(log, since);
      } else {
        assert p in dev.file && Genuine(content, p, dev.file[p]);
      }
    }
  }

  /** After a pull the device is level with the server and holds everything the server has, or later. */
  lemma AfterPull(dev: Dev, log: seq<Version>, content: (Uuid, Time) -> Obj)
    requires Orderly(content) && GenuineLog(content, log) && PlacesCovered(log) && GoodDev(dev, log, content)
    ensures var p := PulledDev(dev, log);
            && Ahead(p.file, log) && Level(p.tracked.states, log)
            && KnownHere(p) && Closed(p.file) && p.tracked.lastSeq == |log|
            && (forall u | u in dev.file :: u in p.file && dev.file[u].mod <= p.file[u].mod)
            && (forall u | u in p.file :: (u in dev.file && p.file[u] == dev.file[u])
                                          || (InLog(log, u) && p.file[u] == Latest(log, u)))
            && GenuineFile(content, p.file)
  {
    PulledFile(dev, log, content);
    PulledStates(dev, log, content);
    KnownStaysHere(dev, log, content);
  }

  lemma PulledFile(dev: Dev, log: seq<Version>, content: (Uuid, Time) -> Obj)
    requires Orderly(content) && GenuineLog(content, log) && PlacesCovered(log) && GoodDev(dev, log, content)
    ensures var file := PulledDev(dev, log).file;
            && Ahead(file, log) && GenuineFile(content, file) && Closed(file)
            && (forall u | u in dev.file :: u in file && dev.file[u].mod <= file[u].mod)
            && (forall u | u in file :: (u in dev.file && file[u] == dev.file[u]) || (InLog(log, u) && file[u] == Latest(log, u)))
  {
    var pulled := PulledDev(dev, log).file;
    PulledObjects(dev, log, content);
    PulledIsGenuine(dev.file, pulled, log, content);
    PulledIsClosed(dev.file, pulled, log);
  }

  lemma PulledObjects(dev: Dev, log: seq<Version>, content: (Uuid, Time) -> Obj)
    requires Orderly(content) && GenuineLog(content, log) && GenuineFile(content, dev.file)
    requires 0 <= dev.tracked.lastSeq && Covered(dev, log) && PlacesCovered(log)
    ensures var file := PulledDev(dev, log).file;
            && Ahead(file, log) && (forall u | u in dev.file :: u in file && dev.file[u].mod <= file[u].mod)
            && (forall u | u in file :: (u in dev.file && file[u] == dev.file[u]) || (InLog(log, u) && file[u] == Latest(log, u)))
  {
    var file := PulledDev(dev, log).file;
    forall u
      ensures u in dev.file ==> u in file && dev.file[u].mod <= file[u].mod
      ensures InLog(log, u) ==> u in file && Latest(log, u).mod <= file[u].mod
      ensures u in file ==> (u in dev.file && file[u] == dev.file[u]) || (InLog(log, u) && file[u] == Latest(log, u))
    {
      PulledObjectIs(dev, log, content, u);
    }
  }

  lemma PulledIsGenuine(file: Local, pulled: Local, log: seq<Version>, content: (Uuid, Time) -> Obj)
    requires GenuineLog(content, log) && GenuineFile(content, file)
    requires forall u | u in pulled :: (u in file && pulled[u] == file[u]) || (InLog(log, u) && pulled[u] == Latest(log, u))
    ensures GenuineFile(content, pulled)
  {}

  lemma PulledIsClosed(file: Local, pulled: Local, log: seq<Version>)
    requires Closed(file) && PlacesCovered(log) && Ahead(pulled, log) && forall u | u in file :: u in pulled
    requires forall u | u in pulled :: (u in file && pulled[u] == file[u]) || (InLog(log, u) && pulled[u] == Latest(log, u))
    ensures Closed(pulled)
  {
    forall u | u in pulled && pulled[u].Live? && pulled[u].place.Some? ensures pulled[u].place.value in pulled {
      if !(u in file && pulled[u] == file[u]) {
        assert PlaceCovered(log, log[Newest(log, u).value].obj);
      }
    }
  }

  lemma PulledStates(dev: Dev, log: seq<Version>, content: (Uuid, Time) -> Obj)
    requires GenuineLog(content, log) && GoodDev(dev, log, content)
    ensures Level(PulledDev(dev, log).tracked.states, log)
  {
    GenuineIsWhole(content, log);
    PullReads(dev, log, true);
  }

  lemma KnownStaysHere(dev: Dev, log: seq<Version>, content: (Uuid, Time) -> Obj)
    requires Orderly(content) && GoodDev(dev, log, content) && GenuineFile(content, PulledDev(dev, log).file)
    requires forall u | u in dev.file :: u in PulledDev(dev, log).file
    ensures KnownHere(PulledDev(dev, log))
  {
    var p := PulledDev(dev, log);
    forall u | u in p.tracked.known ensures u in Folders(p.file) {
      KnownAfterPull(dev, log, u);
      assert Genuine(content, u, dev.file[u]) && Genuine(content, u, p.file[u]);
    }
  }

  lemma PulledObjectIs(dev: Dev, log: seq<Version>, content: (Uuid, Time) -> Obj, u: Uuid)
    requires Orderly(content) && GenuineLog(content, log) && GenuineFile(content, dev.file)
    requires 0 <= dev.tracked.lastSeq && Covered(dev, log) && PlacesCovered(log)
    ensures var file := MergeOffered(dev.file, log, dev.tracked.lastSeq);
            && (u in dev.file ==> u in file && dev.file[u].mod <= file[u].mod)
            && (InLog(log, u) ==> u in file && Latest(log, u).mod <= file[u].mod)
            && (u in file ==> (u in dev.file && file[u] == dev.file[u]) || (InLog(log, u) && file[u] == Latest(log, u)))
  {
    var since := dev.tracked.lastSeq;
    var n := Newest(log, u);
    if n.Some? && n.value >= since {
      assert n.value in Offered(log, since) && u in OfferedUuids(log, since);
      PlacesResolve(dev, log, content, n.value);
      if u in dev.file {
        MergeOfGenuine(content, u, dev.file[u], log[n.value].obj);
      }
    }
  }

  // ---------------------------------------------------------------- the push half

  /** The log and the tracking map stay level while a file that is ahead is being uploaded. */
  ghost predicate Uploading(p: Progress, log: seq<Version>, file: Local, base: nat, answers: nat,
                            content: (Uuid, Time) -> Obj)
  {
    && Level(p.states, log) && Ahead(file, log) && Rising(log) && GenuineLog(content, log)
    && |log| == base + |p.sent| && |p.sent| <= answers
    && p.maxSeq == (if p.sent == [] then 0 else |log|)
    && p.replies == Consecutive(|log|, answers - |p.sent|)
    && (p.failed ==> |p.sent| == answers)
  }

  lemma LevelAppend(states: States, log: seq<Version>, file: Local, v: Version, content: (Uuid, Time) -> Obj)
    requires Level(states, log) && Ahead(file, log) && Rising(log) && GenuineLog(content, log)
    requires v.uuid in file && v.obj == file[v.uuid] && Genuine(content, v.uuid, v.obj)
    requires !AtLeast(states, v.uuid, v.obj.mod)
    ensures var log', states' := log + [v], Record(states, v.uuid, Format(v.obj.mod));
            Level(states', log') && Ahead(file, log') && Rising(log') && GenuineLog(content, log')
  {
    var log', states' := log + [v], Record(states, v.uuid, Format(v.obj.mod));
    FloorIsLastSecond(v.obj.mod, v.obj.mod);
    forall u ensures InLog(log', u) <==> InLog(log, u) || u == v.uuid
             ensures InLog(log', u) ==> Latest(log', u) == (if u == v.uuid then v.obj else Latest(log, u))
    {
      NewestAppend(log, v, u);
    }
    assert Floor(v.obj.mod) == v.obj.mod;
    forall u, t ensures AtLeast(states', u, t) <==> InLog(log', u) && t <= Latest(log', u).mod {
      if u != v.uuid {
        assert AtLeast(states', u, t) <==> AtLeast(states, u, t);
      }
    }
    forall i | 0 <= i < |log| && log[i].uuid == v.uuid ensures log[i].obj.mod < v.obj.mod {
      var n := Newest(log, v.uuid).value;
      assert i <= n;
      assert Latest(log, v.uuid).mod < v.obj.mod;
    }
  }

  lemma UploadStep(p: Progress, it: Item, log: seq<Version>, d: Device, file: Local, base: nat, answers: nat,
                   content: (Uuid, Time) -> Obj)
    requires Uploading(p, log, file, base, answers, content)
    requires GenuineFile(content, file) && it.uuid in file && !it.kind.GroupTombstone?
    requires it.trigger == file[it.uuid].mod
    ensures var q := Step(p, it);
            if |q.sent| == |p.sent| then q.sent == p.sent && Uploading(q, log, file, base, answers, content)
            else q.sent == p.sent + [it]
                 && Uploading(q, log + [Version(d, it.uuid, file[it.uuid])], file, base, answers, content)
  {
    var q, v := Step(p, it), Version(d, it.uuid, file[it.uuid]);
    var left := answers - |p.sent|;
    if |q.sent| != |p.sent| {
      assert p.replies[0] == Accepted(|log| + 1);
      assert Consecutive(|log|, left)[1..] == Consecutive(|log| + 1, left - 1);
      LevelAppend(p.states, log, file, v, content);
    }
  }

  lemma {:induction false} RunUploads(p: Progress, items: seq<Item>, log: seq<Version>, d: Device, file: Local,
                                      answers: nat, content: (Uuid, Time) -> Obj)
    requires p.sent == [] && Uploading(p, log, file, |log|, answers, content) && GenuineFile(content, file)
    requires forall it | it in items ::
               it.uuid in file && !it.kind.GroupTombstone? && it.trigger == file[it.uuid].mod
    ensures var q := Run(p, items);
            && (forall it | it in q.sent :: it.uuid in file && !it.kind.GroupTombstone?)
            && Uploading(q, log + Uploaded(d, file, q.sent), file, |log|, answers, content)
            && |q.sent| <= |items|
  {
    if items == [] {
      assert log + Uploaded(d, file, []) == log;
    } else {
      var n := |items| - 1;
      assert items == items[..n] + [items[n]];
      assert items[n] in items;
      RunUploads(p, items[..n], log, d, file, answers, content);
      var q := Run(p, items[..n]);
      UploadStep(q, items[n], log + Uploaded(d, file, q.sent), d, file, |log|, answers, content);
      var r := Step(q, items[n]);
      if |r.sent| != |q.sent| {
        assert r.sent[..|q.sent|] == q.sent;
        OneMoreUploaded(d, file, r.sent, log);
        GenuineIsStamped(content, file, items[n].uuid);
      }
    }
  }

  lemma GenuineIsStamped(content: (Uuid, Time) -> Obj, file: Local, u: Uuid)
    requires GenuineFile(content, file) && u in file
    ensures Stamped(file[u]) == file[u]
  {
    assert Genuine(content, u, file[u]);
    FloorIsLastSecond(file[u].mod, file[u].mod);
  }

  /** What a push does to the log, from a device that is level with it and ahead of it. */
  lemma AfterPush(dev: Dev, log: seq<Version>, d: Device, answers: nat, now: Time, content: (Uuid, Time) -> Obj)
    requires Orderly(content) && GenuineLog(content, log) && GenuineFile(content, dev.file) && Rising(log)
    requires KnownHere(dev) && Level(dev.tracked.states, log) && Ahead(dev.file, log)
    ensures var r := PushedDev(dev, log, answers, now);
            && Sendable(dev.file, r.sent)
            && var log' := log + Uploaded(d, dev.file, r.sent);
               && Level(r.tracked.states, log') && Ahead(dev.file, log') && Rising(log') && GenuineLog(content, log')
               && Max(|log|, r.maxSeq) == |log'| && r.tracked.lastSeq == dev.tracked.lastSeq
               && (forall u | u in r.tracked.known :: u in Folders(dev.file))
               && (!r.failed ==> ServerMap(log') == dev.file)
               && (answers >= |ItemsOf(dev, now)| ==> !r.failed)
  {
    var replies := Consecutive(|log|, answers);
    PushedRun(dev, log, answers, now);
    NoTombs(dev, now);
    TriggersAreMods(content, dev.file);
    EachHasAnItem(dev, now);
    StartsUploading(dev.tracked.states, log, dev.file, answers, content);
    AfterRun(Start(dev.tracked.states, replies), ItemsOf(dev, now), log, d, dev.file, answers, content);
  }

  lemma StartsUploading(states: States, log: seq<Version>, file: Local, answers: nat, content: (Uuid, Time) -> Obj)
    requires Level(states, log) && Ahead(file, log) && Rising(log) && GenuineLog(content, log)
    ensures Uploading(Start(states, Consecutive(|log|, answers)), log, file, |log|, answers, content)
  {}

  /** A push that misses no known group, as one run. */
  lemma PushedRun(dev: Dev, log: seq<Version>, answers: nat, now: Time)
    requires KnownHere(dev)
    ensures var r := PushedDev(dev, log, answers, now);
            var q := Run(Start(dev.tracked.states, Consecutive(|log|, answers)), ItemsOf(dev, now));
            && r.tracked.states == q.states && r.sent == q.sent && r.maxSeq == q.maxSeq && r.failed == q.failed
            && r.tracked.lastSeq == dev.tracked.lastSeq
            && forall u | u in r.tracked.known :: u in Folders(dev.file)
  {
    PushIsOneRun(dev, now, Consecutive(|log|, answers));
  }

  lemma AfterRun(p: Progress, items: seq<Item>, log: seq<Version>, d: Device, file: Local, answers: nat,
                 content: (Uuid, Time) -> Obj)
    requires p.sent == [] && !p.failed && Uploading(p, log, file, |log|, answers, content) && GenuineFile(content, file)
    requires forall it | it in items :: it.uuid in file && !it.kind.GroupTombstone? && it.trigger == file[it.uuid].mod
    requires forall u | u in file :: exists it :: it in items && it.uuid == u
    ensures var q := Run(p, items);
            && Sendable(file, q.sent)
            && Uploading(q, log + Uploaded(d, file, q.sent), file, |log|, answers, content)
            && (!q.failed ==> ServerMap(log + Uploaded(d, file, q.sent)) == file)
            && (answers >= |items| ==> !q.failed)
  {
    RunUploads(p, items, log, d, file, answers, content);
    var q := Run(p, items);
    if !q.failed {
      UploadedEverything(p, items, log + Uploaded(d, file, q.sent), file, content);
    }
    if answers >= |items| {
      EnoughAnswers(p, items);
    }
  }

  lemma TriggersAreMods(content: (Uuid, Time) -> Obj, file: Local)
    requires Orderly(content) && GenuineFile(content, file)
    ensures forall u | u in file :: Trigger(file[u]) == file[u].mod
  {
    forall u | u in file ensures Trigger(file[u]) == file[u].mod {
      assert Genuine(content, u, file[u]);
    }
  }

  lemma EachHasAnItem(dev: Dev, now: Time)
    ensures forall u | u in dev.file :: exists it :: it in ItemsOf(dev, now) && it.uuid == u
  {
    forall u | u in dev.file ensures exists it :: it in ItemsOf(dev, now) && it.uuid == u {
      var k := ItemOf(dev, now, u);
      assert ItemsOf(dev, now)[k] in ItemsOf(dev, now);
    }
  }

  /** A run that went through leaves the server with exactly what the file holds. */
  lemma UploadedEverything(p: Progress, items: seq<Item>, log': seq<Version>, file: Local, content: (Uuid, Time) -> Obj)
    requires !Run(p, items).failed && GenuineFile(content, file) && GenuineLog(content, log')
    requires Level(Run(p, items).states, log') && Ahead(file, log')
    requires forall it | it in items ::
               it.uuid in file && !it.kind.GroupTombstone? && it.trigger == file[it.uuid].mod
    requires forall u | u in file :: exists it :: it in items && it.uuid == u
    ensures ServerMap(log') == file
  {
    assert WholeItems(items) by {
      forall i | i in items ensures Whole(i.trigger) {
        assert Genuine(content, i.uuid, file[i.uuid]);
      }
    }
    forall u | u in file ensures InLog(log', u) && Latest(log', u) == file[u] {
      var it :| it in items && it.uuid == u;
      OfferedIsKnown(p, items, it);
      LevelAndAhead(Run(p, items).states, log', file, u, content);
    }
    forall u ensures u in ServerMap(log') <==> u in file {
      ServerMapIs(log', u);
    }
    forall u | u in file ensures ServerMap(log')[u] == file[u] {
      ServerMapIs(log', u);
    }
  }

  /** What is recorded in full on both sides is the same version. */
  lemma LevelAndAhead(states: States, log: seq<Version>, file: Local, u: Uuid, content: (Uuid, Time) -> Obj)
    requires GenuineFile(content, file) && GenuineLog(content, log) && Level(states, log) && Ahead(file, log)
    requires u in file && AtLeast(states, u, file[u].mod)
    ensures InLog(log, u) && Latest(log, u) == file[u]
  {
    assert Genuine(content, u, file[u]) && Genuine(content, u, log[Newest(log, u).value].obj);
  }

  /** After a run that went through, what it offered is recorded. */
  lemma OfferedIsKnown(p: Progress, items: seq<Item>, it: Item)
    requires !Run(p, items).failed && WholeItems(items) && it in items && !it.kind.GroupTombstone?
    ensures AtLeast(Run(p, items).states, it.uuid, it.trigger)
  {
    FloorIsLastSecond(it.trigger, it.trigger);
    AllOffered(items, it);
    StatesAfterRun(p, items, it.uuid, it.trigger);
  }

  /** Everything is uploaded after what it is filed in, so a push that stops half-way leaves no reference open. */
  lemma PlacesStayCovered(dev: Dev, log: seq<Version>, d: Device, answers: nat, now: Time, content: (Uuid, Time) -> Obj)
    requires Orderly(content) && GenuineFile(content, dev.file) && Closed(dev.file) && KnownHere(dev)
    requires Level(dev.tracked.states, log) && PlacesCovered(log)
    requires IsTree(dev.file)
    requires Sendable(dev.file, PushedDev(dev, log, answers, now).sent)
    ensures PlacesCovered(log + Uploaded(d, dev.file, PushedDev(dev, log, answers, now).sent))
  {
    var sent := PushedDev(dev, log, answers, now).sent;
    var up := Uploaded(d, dev.file, sent);
    forall k | 0 <= k < |up| ensures PlaceCovered(log + up, up[k].obj) {
      UploadedAt(d, dev.file, sent, k);
      ParentIsThere(dev, log, d, answers, now, sent[k], content);
    }
    PlacesExtend(log, up);
  }

  lemma PlacesExtend(log: seq<Version>, up: seq<Version>)
    requires PlacesCovered(log) && forall k | 0 <= k < |up| :: PlaceCovered(log + up, up[k].obj)
    ensures PlacesCovered(log + up)
  {
    forall i | 0 <= i < |log + up| ensures PlaceCovered(log + up, (log + up)[i].obj) {
      if i < |log| {
        assert PlaceCovered(log, log[i].obj);
        if log[i].obj.Live? && log[i].obj.place.Some? {
          StillInLog(log, log + up, log[i].obj.place.value);
        }
      } else {
        assert PlaceCovered(log + up, up[i - |log|].obj);
      }
    }
  }

  lemma StillInLog(log: seq<Version>, log': seq<Version>, u: Uuid)
    requires log <= log' && InLog(log, u)
    ensures InLog(log', u)
  {
    assert log'[Newest(log, u).value] == log[Newest(log, u).value];
  }

  lemma ParentIsThere(dev: Dev, log: seq<Version>, d: Device, answers: nat, now: Time, it: Item,
                      content: (Uuid, Time) -> Obj)
    requires Orderly(content) && GenuineFile(content, dev.file) && Closed(dev.file) && KnownHere(dev)
    requires Level(dev.tracked.states, log) && IsTree(dev.file)
    requires Sendable(dev.file, PushedDev(dev, log, answers, now).sent) && it in PushedDev(dev, log, answers, now).sent
    ensures PlaceCovered(log + Uploaded(d, dev.file, PushedDev(dev, log, answers, now).sent), SentObj(dev.file, it))
  {
    if SentObj(dev.file, it).Live? && dev.file[it.uuid].place.Some? {
      var parent := dev.file[it.uuid].place.value;
      assert Genuine(content, it.uuid, dev.file[it.uuid]) && Genuine(content, parent, dev.file[parent]);
      ParentSentOrKnown(dev, log, answers, now, it, parent);
      SentOrKnownIsInLog(dev, log, d, answers, now, parent);
    }
  }

  lemma SentOrKnownIsInLog(dev: Dev, log: seq<Version>, d: Device, answers: nat, now: Time, parent: Uuid)
    requires KnownHere(dev) && Level(dev.tracked.states, log) && parent in Folders(dev.file)
    requires Sendable(dev.file, PushedDev(dev, log, answers, now).sent)
    requires Sends(PushedDev(dev, log, answers, now).sent, parent)
             || AtLeast(dev.tracked.states, parent, Trigger(dev.file[parent]))
    ensures InLog(log + Uploaded(d, dev.file, PushedDev(dev, log, answers, now).sent), parent)
  {
    var sent := PushedDev(dev, log, answers, now).sent;
    var log' := log + Uploaded(d, dev.file, sent);
    if Sends(sent, parent) {
      SentAsItIs(dev, log, answers, now, parent);
      NewestAfterUploads(log, d, dev.file, sent, parent, Stamped(dev.file[parent]));
    } else {
      StillInLog(log, log', parent);
    }
  }

  /** Where the item of a live object stands: after the item of the group it is filed in. */
  lemma ParentBefore(dev: Dev, now: Time, i: nat, j: nat)
    requires i < |ItemsOf(dev, now)| && j < |ItemsOf(dev, now)| && IsTree(dev.file)
    requires !ItemsOf(dev, now)[i].kind.GroupTombstone? && ItemsOf(dev, now)[i].uuid in dev.file
    requires dev.file[ItemsOf(dev, now)[i].uuid].Live?
    requires j < |Walk(dev.file)| && dev.file[ItemsOf(dev, now)[i].uuid].place == Some(Walk(dev.file)[j])
    ensures j < i
  {
    var walk := Walk(dev.file);
    GroupItemsFirst(dev, now, i);
    if i < |walk| {
      var rank: Uuid -> nat :| Ranked(dev.file, rank);
      ParentsFirst(dev.file, Folders(dev.file), [], rank, i);
      assert walk[j] in walk;
      assert walk[j] in walk[..i];
      var k :| 0 <= k < i && walk[k] == walk[j];
    }
  }

  lemma ParentSentOrKnown(dev: Dev, log: seq<Version>, answers: nat, now: Time, it: Item, parent: Uuid)
    requires IsTree(dev.file) && KnownHere(dev) && it in PushedDev(dev, log, answers, now).sent
    requires !it.kind.GroupTombstone? && it.uuid in dev.file && dev.file[it.uuid].Live?
    requires dev.file[it.uuid].place == Some(parent) && parent in Folders(dev.file)
    ensures Sends(PushedDev(dev, log, answers, now).sent, parent)
            || AtLeast(dev.tracked.states, parent, Trigger(dev.file[parent]))
  {
    PushIsOneRun(dev, now, Consecutive(|log|, answers));
    ParentInRun(dev, now, Start(dev.tracked.states, Consecutive(|log|, answers)), ItemsOf(dev, now), it, parent);
  }

  lemma ParentInRun(dev: Dev, now: Time, p: Progress, items: seq<Item>, it: Item, parent: Uuid)
    requires items == ItemsOf(dev, now) && p.sent == [] && it in Run(p, items).sent
    requires IsTree(dev.file) && KnownHere(dev)
    requires !it.kind.GroupTombstone? && it.uuid in dev.file && dev.file[it.uuid].Live?
    requires dev.file[it.uuid].place == Some(parent) && parent in Folders(dev.file)
    ensures Sends(Run(p, items).sent, parent) || AtLeast(p.states, parent, Trigger(dev.file[parent]))
  {
    RunSendsOffered(p, items);
    var i :| 0 <= i < |items| && items[i] == it;
    var j := ItemOf(dev, now, parent);
    FileItemAt(dev, now, j);
    ParentBefore(dev, now, i, j);
    ItemIsAlone(dev, now, i);
    ItemIsAlone(dev, now, j);
    EarlierIsDealtWith(p, items, i, j);
  }

  /** What stands before a sent item was sent too, or not due. */
  lemma EarlierIsDealtWith(p: Progress, items: seq<Item>, i: nat, j: nat)
    requires j < i < |items| && OnlyOne(items, i) && OnlyOne(items, j) && p.sent == []
    requires items[i] in Run(p, items).sent && !items[j].kind.GroupTombstone?
    ensures items[j] in Run(p, items).sent || AtLeast(p.states, items[j].uuid, items[j].trigger)
  {
    SentAfter(p, items, i);
    assert forall k | 0 <= k < i :: items[..i][k] == items[k];
    SentIff(p, items[..i], j);
  }

  // ---------------------------------------------------------------- the invariant of a run

  ghost predicate GoodDev(dev: Dev, log: seq<Version>, content: (Uuid, Time) -> Obj) {
    && 0 <= dev.tracked.lastSeq <= |log| && KnownHere(dev)
    && GenuineFile(content, dev.file) && Closed(dev.file)
    && Covered(dev, log) && Bounded(dev.tracked.states, log)
  }

  /** No version ever made has been lost: the server or some device has it, or something later. */
  ghost predicate Kept(w: World, u: Uuid, t: Time) {
    || (InLog(w.log, u) && t <= Latest(w.log, u).mod)
    || exists d :: 0 <= d < |w.devs| && u in w.devs[d].file && t <= w.devs[d].file[u].mod
  }

  ghost predicate Inv(w: World, content: (Uuid, Time) -> Obj) {
    && GenuineLog(content, w.log) && Rising(w.log) && PlacesCovered(w.log)
    && (forall d | 0 <= d < |w.devs| :: GoodDev(w.devs[d], w.log, content))
    && (forall m | m in w.made :: Kept(w, m.0, m.1.mod))
    && AllMade(w)
  }

  lemma InvIsTidy(w: World, content: (Uuid, Time) -> Obj)
    requires Inv(w, content)
    ensures Tidy(w)
  {
    forall dev | dev in w.devs ensures dev.tracked.lastSeq >= 0 {
      var d :| 0 <= d < |w.devs| && w.devs[d] == dev;
      assert GoodDev(w.devs[d], w.log, content);
    }
  }

  lemma GoodDevGrows(dev: Dev, log: seq<Version>, log': seq<Version>, content: (Uuid, Time) -> Obj)
    requires GoodDev(dev, log, content) && log <= log' && Rising(log')
    ensures GoodDev(dev, log', content)
  {
    forall u ensures InLog(log, u) ==> InLog(log', u) && Latest(log, u).mod <= Latest(log', u).mod
             ensures InLog(log', u) && Newest(log', u).value < |log| ==> Newest(log, u) == Newest(log', u)
    {
      LogGrows(log, log', u);
    }
    forall u | InLog(log', u) && Newest(log', u).value < dev.tracked.lastSeq
      ensures u in dev.file && Latest(log', u).mod <= dev.file[u].mod
              && AtLeast(dev.tracked.states, u, Latest(log', u).mod)
    {
      assert log'[Newest(log, u).value] == log[Newest(log, u).value];
    }
  }

  /** A sync can stop anywhere as long as the exported groups are a tree; one that goes through needs no order. */
  ghost predicate Orderable(dev: Dev, log: seq<Version>, answers: nat, now: Time)
    requires dev.tracked.lastSeq >= 0
  {
    IsTree(PulledDev(dev, log).file) || answers >= |ItemsOf(PulledDev(dev, log), now)|
  }

  /** What one sync leaves behind on its device, and what it appends to the log. */
  lemma SyncDevice(dev: Dev, log: seq<Version>, d: Device, answers: nat, now: Time, content: (Uuid, Time) -> Obj)
    requires Orderly(content) && GenuineLog(content, log) && Rising(log) && PlacesCovered(log)
    requires GoodDev(dev, log, content) && Orderable(dev, log, answers, now)
    ensures var pulled, log' := PulledDev(dev, log), LogAfter(dev, log, d, answers, now);
            var r := PushedDev(pulled, log, answers, now);
            && log <= log' && Rising(log') && GenuineLog(content, log') && PlacesCovered(log')
            && GoodDev(pulled.(tracked := r.tracked.(lastSeq := Max(|log|, r.maxSeq))), log', content)
            && GoodDev(pulled.(tracked := dev.tracked), log', content)
            && (!r.failed ==> ServerMap(log') == pulled.file)
            && (answers >= |ItemsOf(pulled, now)| ==> !r.failed)
  {
    AfterPull(dev, log, content);
    var pulled := PulledDev(dev, log);
    AfterPush(pulled, log, d, answers, now, content);
    var log' := LogAfter(dev, log, d, answers, now);
    if IsTree(pulled.file) {
      PlacesStayCovered(pulled, log, d, answers, now, content);
    } else {
      AllPlacesCovered(log, d, pulled.file, PushedDev(pulled, log, answers, now).sent);
    }
    GoodDevGrows(dev, log, log', content);
    AsGoodWithOldStates(dev, pulled, log', content);
  }

  lemma AsGoodWithOldStates(dev: Dev, pulled: Dev, log: seq<Version>, content: (Uuid, Time) -> Obj)
    requires GoodDev(dev, log, content) && GenuineFile(content, pulled.file) && Closed(pulled.file)
    requires forall u | u in dev.file :: u in pulled.file && dev.file[u].mod <= pulled.file[u].mod
    requires Orderly(content)
    ensures GoodDev(pulled.(tracked := dev.tracked), log, content)
  {
    forall u | u in dev.tracked.known ensures u in Folders(pulled.file) {
      assert Genuine(content, u, dev.file[u]) && Genuine(content, u, pulled.file[u]);
    }
  }

  lemma AllPlacesCovered(log: seq<Version>, d: Device, file: Local, sent: seq<Item>)
    requires PlacesCovered(log) && Closed(file) && Sendable(file, sent)
    requires ServerMap(log + Uploaded(d, file, sent)) == file
    ensures PlacesCovered(log + Uploaded(d, file, sent))
  {
    var up := Uploaded(d, file, sent);
    forall k | 0 <= k < |up| ensures PlaceCovered(log + up, up[k].obj) {
      UploadedAt(d, file, sent, k);
      if up[k].obj.Live? && up[k].obj.place.Some? {
        ServerMapIs(log + up, up[k].obj.place.value);
      }
    }
    PlacesExtend(log, up);
  }

  ghost predicate FileMade(file: Local, made: set<(Uuid, Obj)>) {
    forall u | u in file :: (u, file[u]) in made
  }

  ghost predicate LogMade(log: seq<Version>, made: set<(Uuid, Obj)>) {
    forall i | 0 <= i < |log| :: (log[i].uuid, log[i].obj) in made
  }

  /** Everything in every file and in the log was made by someone. */
  ghost predicate AllMade(w: World) {
    (forall d | 0 <= d < |w.devs| :: FileMade(w.devs[d].file, w.made)) && LogMade(w.log, w.made)
  }

  lemma SyncOfMade(dev: Dev, log: seq<Version>, d: Device, answers: nat, now: Time, made: set<(Uuid, Obj)>,
                   content: (Uuid, Time) -> Obj)
    requires Orderly(content) && GenuineLog(content, log) && PlacesCovered(log) && GoodDev(dev, log, content)
    requires FileMade(dev.file, made) && LogMade(log, made)
    ensures FileMade(PulledDev(dev, log).file, made) && LogMade(LogAfter(dev, log, d, answers, now), made)
  {
    AfterPull(dev, log, content);
    var pulled := PulledDev(dev, log);
    SentIsSendable(pulled, log, answers, now);
    var sent := PushedDev(pulled, log, answers, now).sent;
    forall it | it in sent ensures !it.kind.GroupTombstone? && SentObj(pulled.file, it) == pulled.file[it.uuid] {
      GenuineIsStamped(content, pulled.file, it.uuid);
    }
    UploadedMade(log, d, pulled.file, sent, made);
  }

  lemma UploadedMade(log: seq<Version>, d: Device, file: Local, sent: seq<Item>, made: set<(Uuid, Obj)>)
    requires Sendable(file, sent) && FileMade(file, made) && LogMade(log, made)
    requires forall it | it in sent :: !it.kind.GroupTombstone? && SentObj(file, it) == file[it.uuid]
    ensures LogMade(log + Uploaded(d, file, sent), made)
  {
    var up := Uploaded(d, file, sent);
    forall i | 0 <= i < |log + up| ensures ((log + up)[i].uuid, (log + up)[i].obj) in made {
      if i >= |log| {
        var it := sent[i - |log|];
        assert it in sent && up[i - |log|] == Version(d, it.uuid, file[it.uuid]);
      }
    }
  }

  lemma SyncKeepsMade(w: World, e: Event, content: (Uuid, Time) -> Obj)
    requires Orderly(content) && Inv(w, content) && Tidy(w) && e.Sync? && Has(w, e.d)
    ensures AllMade(Next(w, e))
  {
    NextSync(w, e);
    SyncOfMade(w.devs[e.d], w.log, e.d, e.answers, e.now, w.made, content);
  }

  lemma SyncKeepsDevs(w: World, e: Event, content: (Uuid, Time) -> Obj)
    requires Orderly(content) && Inv(w, content) && Tidy(w) && e.Sync? && Has(w, e.d)
    requires w.devs[e.d].tracked.lastSeq >= 0 && Orderable(w.devs[e.d], w.log, e.answers, e.now)
    ensures var w' := Next(w, e);
            && w.log <= w'.log && GenuineLog(content, w'.log) && Rising(w'.log) && PlacesCovered(w'.log)
            && (forall k | 0 <= k < |w'.devs| :: GoodDev(w'.devs[k], w'.log, content))
  {
    var dev, d, w' := w.devs[e.d], e.d, Next(w, e);
    NextSync(w, e);
    SyncDevice(dev, w.log, d, e.answers, e.now, content);
    forall k | 0 <= k < |w'.devs| ensures GoodDev(w'.devs[k], w'.log, content) {
      if k != d {
        GoodDevGrows(w.devs[k], w.log, w'.log, content);
      }
    }
  }

  lemma SyncKeepsInv(w: World, e: Event, content: (Uuid, Time) -> Obj)
    requires Orderly(content) && Inv(w, content) && Tidy(w) && e.Sync? && Has(w, e.d)
    requires w.devs[e.d].tracked.lastSeq >= 0 && Orderable(w.devs[e.d], w.log, e.answers, e.now)
    ensures Inv(Next(w, e), content)
  {
    var w' := Next(w, e);
    NextSync(w, e);
    SyncKeepsDevs(w, e, content);
    SyncKeepsMade(w, e, content);
    AfterPull(w.devs[e.d], w.log, content);
    MadeStays(w, w', e.d);
  }

  lemma MadeStays(w: World, w': World, d: Device)
    requires w.log <= w'.log && Rising(w'.log) && w'.made == w.made && |w'.devs| == |w.devs| && d < |w.devs|
    requires forall k | 0 <= k < |w.devs| && k != d :: w'.devs[k].file == w.devs[k].file
    requires forall u | u in w.devs[d].file :: u in w'.devs[d].file && w.devs[d].file[u].mod <= w'.devs[d].file[u].mod
    requires forall m | m in w.made :: Kept(w, m.0, m.1.mod)
    ensures forall m | m in w'.made :: Kept(w', m.0, m.1.mod)
  {
    forall m | m in w'.made ensures Kept(w', m.0, m.1.mod) {
      assert Kept(w, m.0, m.1.mod);
      LogGrows(w.log, w'.log, m.0);
      if !(InLog(w.log, m.0) && m.1.mod <= Latest(w.log, m.0).mod) {
        var k :| 0 <= k < |w.devs| && m.0 in w.devs[k].file && m.1.mod <= w.devs[k].file[m.0].mod;
        assert m.0 in w'.devs[k].file && m.1.mod <= w'.devs[k].file[m.0].mod;
      }
    }
  }

  lemma KeptAfterEdit(w: World, e: Event, u: Uuid, t: Time)
    requires Tidy(w) && e.Edit? && Has(w, e.d) && Kept(w, u, t)
    requires e.u in w.devs[e.d].file ==> w.devs[e.d].file[e.u].mod < e.o.mod
    ensures Kept(Next(w, e), u, t)
  {
    var w' := Next(w, e);
    if !(InLog(w.log, u) && t <= Latest(w.log, u).mod) {
      var k :| 0 <= k < |w.devs| && u in w.devs[k].file && t <= w.devs[k].file[u].mod;
      assert u in w'.devs[k].file && t <= w'.devs[k].file[u].mod;
    }
  }

  lemma EditedDevIsGood(dev: Dev, log: seq<Version>, u: Uuid, o: Obj, content: (Uuid, Time) -> Obj)
    requires Orderly(content) && GoodDev(dev, log, content) && Genuine(content, u, o)
    requires u in dev.file ==> dev.file[u].mod < o.mod
    requires o.Live? && o.place.Some? ==> o.place.value in dev.file
    ensures GoodDev(dev.(file := dev.file[u := o]), log, content)
  {
    forall k | k in dev.tracked.known ensures k in Folders(dev.file[u := o]) {
      if k == u {
        assert Genuine(content, u, dev.file[u]) && IsFolder(dev.file[u]);
      }
    }
  }

  lemma EditKeepsInv(w: World, e: Event, content: (Uuid, Time) -> Obj)
    requires Orderly(content) && Inv(w, content) && Tidy(w) && e.Edit? && Allowed(w, e, content)
    ensures Inv(Next(w, e), content)
  {
    var w' := Next(w, e);
    EditedDevIsGood(w.devs[e.d], w.log, e.u, e.o, content);
    forall k | 0 <= k < |w'.devs| ensures GoodDev(w'.devs[k], w'.log, content) {
      assert GoodDev(w.devs[k], w.log, content);
    }
    EditKeepsVersions(w, e);
    EditMade(w, e);
  }

  lemma EditKeepsVersions(w: World, e: Event)
    requires Tidy(w) && e.Edit? && Has(w, e.d) && forall m | m in w.made :: Kept(w, m.0, m.1.mod)
    requires e.u in w.devs[e.d].file ==> w.devs[e.d].file[e.u].mod < e.o.mod
    ensures forall m | m in Next(w, e).made :: Kept(Next(w, e), m.0, m.1.mod)
  {
    var w' := Next(w, e);
    forall m | m in w'.made ensures Kept(w', m.0, m.1.mod) {
      if m in w.made {
        KeptAfterEdit(w, e, m.0, m.1.mod);
      } else {
        assert e.u in w'.devs[e.d].file;
      }
    }
  }

  lemma EditMade(w: World, e: Event)
    requires Tidy(w) && e.Edit? && Has(w, e.d) && AllMade(w)
    ensures AllMade(Next(w, e))
  {}

  lemma FailedPullIsGood(dev: Dev, log: seq<Version>, content: (Uuid, Time) -> Obj)
    requires GoodDev(dev, log, content) && GenuineLog(content, log)
    ensures GoodDev(PullFailed(dev, log), log, content)
  {
    GenuineIsWhole(content, log);
    PullReads(dev, log, false);
    PullTracks(dev.tracked, PullEnvOf(dev.file, log, dev.tracked.lastSeq, false));
  }

  lemma PullFailKeepsInv(w: World, e: Event, content: (Uuid, Time) -> Obj)
    requires Inv(w, content) && Tidy(w) && e.PullFails? && Has(w, e.d)
    ensures Inv(Next(w, e), content)
  {
    var w', dev := Next(w, e), w.devs[e.d];
    assert GoodDev(dev, w.log, content);
    FailedPullIsGood(dev, w.log, content);
    forall k | 0 <= k < |w'.devs| ensures GoodDev(w'.devs[k], w'.log, content) {
      assert GoodDev(w.devs[k], w.log, content);
    }
    MadeStays(w, w', e.d);
  }

  lemma StepKeepsInv(w: World, e: Event, content: (Uuid, Time) -> Obj)
    requires Orderly(content) && Inv(w, content) && Tidy(w) && Allowed(w, e, content)
    ensures Inv(Next(w, e), content)
  {
    match e {
      case Edit(_, _, _) => EditKeepsInv(w, e, content);
      case PullFails(_, _) => PullFailKeepsInv(w, e, content);
      case Drop(_, _, _) =>
      case Sync(_, _, _, _) => SyncKeepsInv(w, e, content);
    }
  }

  // ---------------------------------------------------------------- whole runs

  ghost predicate Legal(w: World, events: seq<Event>, content: (Uuid, Time) -> Obj)
    requires Tidy(w)
    decreases |events|
  {
    events == [] ||
    (Allowed(w, events[0], content) && Legal(Next(w, events[0]), events[1..], content))
  }

  ghost function After(w: World, events: seq<Event>, content: (Uuid, Time) -> Obj): (r: World)
    requires Tidy(w) && Legal(w, events, content)
    ensures Tidy(r) && |r.devs| == |w.devs|
    decreases |events|
  {
    if events == [] then w else After(Next(w, events[0]), events[1..], content)
  }

  /** Nothing on this device is news to the server. */
  ghost predicate Clean(dev: Dev, log: seq<Version>) {
    forall u | u in dev.file :: InLog(log, u) && dev.file[u].mod <= Latest(log, u).mod
  }

  lemma ServerMapIs(log: seq<Version>, u: Uuid)
    ensures u in ServerMap(log) <==> InLog(log, u)
    ensures InLog(log, u) ==> ServerMap(log)[u] == Latest(log, u)
  {
    if InLog(log, u) { assert log[Newest(log, u).value] in log; }
  }

  /** A cycle that goes through leaves the device's file equal to the server's, whatever it held before. */
  lemma FullSyncEquals(w: World, t: Turn, content: (Uuid, Time) -> Obj)
    requires Orderly(content) && Inv(w, content) && Tidy(w) && Has(w, t.device)
    ensures var w', d := FullNext(w, t), t.device;
            && w'.devs[d].file == ServerMap(w'.log) && w.log <= w'.log && Rising(w'.log)
            && (forall k | 0 <= k < |w.devs| && k != d :: w'.devs[k] == w.devs[k])
            && w'.made == w.made
            && Clean(w'.devs[d], w'.log)
  {
    var e, d := FullSync(w, t), t.device;
    NextSync(w, e);
    SyncDevice(w.devs[d], w.log, d, e.answers, t.now, content);
    EqualIsClean(FullNext(w, t).devs[d], FullNext(w, t).log);
  }

  lemma EqualIsClean(dev: Dev, log: seq<Version>)
    requires dev.file == ServerMap(log)
    ensures Clean(dev, log)
  {
    forall u | u in dev.file ensures InLog(log, u) && dev.file[u].mod <= Latest(log, u).mod {
      ServerMapIs(log, u);
    }
  }

  lemma CleanStays(dev: Dev, log: seq<Version>, log': seq<Version>)
    requires Clean(dev, log) && log <= log' && Rising(log')
    ensures Clean(dev, log')
  {
    forall u | u in dev.file ensures InLog(log', u) && dev.file[u].mod <= Latest(log', u).mod {
      LogGrows(log, log', u);
    }
  }

  /** A device with nothing new uploads nothing. */
  lemma CleanSyncIsSilent(w: World, t: Turn, content: (Uuid, Time) -> Obj)
    requires Orderly(content) && Inv(w, content) && Tidy(w) && Has(w, t.device) && Clean(w.devs[t.device], w.log)
    ensures FullNext(w, t).log == w.log
  {
    var e, dev := FullSync(w, t), w.devs[t.device];
    NextSync(w, e);
    AfterPull(dev, w.log, content);
    var pulled := PulledDev(dev, w.log);
    SilentPush(pulled, w.log, e.answers, t.now, content);
    assert w.log + Uploaded(t.device, pulled.file, []) == w.log;
  }

  lemma CleanIsKnown(dev: Dev, log: seq<Version>, u: Uuid)
    requires Level(dev.tracked.states, log) && Clean(dev, log) && u in dev.file
    ensures AtLeast(dev.tracked.states, u, dev.file[u].mod)
  {}

  lemma SilentPush(dev: Dev, log: seq<Version>, answers: nat, now: Time, content: (Uuid, Time) -> Obj)
    requires Orderly(content) && GenuineFile(content, dev.file) && Level(dev.tracked.states, log) && Clean(dev, log)
    requires KnownHere(dev)
    ensures PushedDev(dev, log, answers, now).sent == []
  {
    var p := Start(dev.tracked.states, Consecutive(|log|, answers));
    PushIsOneRun(dev, now, Consecutive(|log|, answers));
    NoTombs(dev, now);
    TriggersAreMods(content, dev.file);
    forall it | it in ItemsOf(dev, now) ensures AtLeast(p.states, it.uuid, it.trigger) {
      CleanIsKnown(dev, log, it.uuid);
    }
    RunSilent(p, ItemsOf(dev, now));
  }

  /** What one turn of a round does to the world. */
  ghost predicate TurnsTo(w: World, d: Device, w': World, content: (Uuid, Time) -> Obj) {
    && Has(w, d) && |w'.devs| == |w.devs| && Inv(w', content) && w'.made == w.made
    && w'.devs[d].file == ServerMap(w'.log) && Clean(w'.devs[d], w'.log)
    && (forall k | 0 <= k < |w.devs| && k != d :: w'.devs[k].file == w.devs[k].file)
    && (forall k | 0 <= k < |w.devs| && Clean(w.devs[k], w.log) :: Clean(w'.devs[k], w'.log))
    && (Clean(w.devs[d], w.log) ==> w'.log == w.log)
  }

  lemma TurnOf(w: World, t: Turn, content: (Uuid, Time) -> Obj)
    requires Orderly(content) && Inv(w, content) && Tidy(w) && Has(w, t.device)
    ensures TurnsTo(w, t.device, FullNext(w, t), content)
  {
    var w', d := FullNext(w, t), t.device;
    assert w.devs[d] in w.devs;
    SyncKeepsInv(w, FullSync(w, t), content);
    FullSyncEquals(w, t, content);
    forall k | 0 <= k < |w.devs| && Clean(w.devs[k], w.log) ensures Clean(w'.devs[k], w'.log) {
      if k != d {
        CleanStays(w.devs[k], w.log, w'.log);
      }
    }
    if Clean(w.devs[d], w.log) {
      CleanSyncIsSilent(w, t, content);
    }
  }

  ghost predicate CleanAt(w: World, d: Device) {
    Has(w, d) && Clean(w.devs[d], w.log)
  }

  ghost predicate EqualAt(w: World, d: Device) {
    Has(w, d) && w.devs[d].file == ServerMap(w.log)
  }

  /** In the first round the devices come clean one by one. */
  lemma CleanSpreads(start: World, content: (Uuid, Time) -> Obj, inv: World -> bool)
    requires Orderly(content)
    requires inv == (w => Inv(w, content) && w.made == start.made && |w.devs| == |start.devs|)
    ensures Carries(inv, CleanAt)
  {
    forall w, t: Turn | Tidy(w) && Has(w, t.device) && inv(w)
      ensures inv(FullNext(w, t)) && CleanAt(FullNext(w, t), t.device)
      ensures forall x | CleanAt(w, x) :: CleanAt(FullNext(w, t), x)
    {
      TurnOf(w, t, content);
    }
  }

  /** From here on nobody has anything to say. */
  ghost predicate Still(w: World, start: World, content: (Uuid, Time) -> Obj) {
    && Inv(w, content) && w.made == start.made && |w.devs| == |start.devs| && w.log == start.log
    && forall k | 0 <= k < |w.devs| :: Clean(w.devs[k], w.log)
  }

  lemma StillTurn(w: World, d: Device, w': World, start: World, content: (Uuid, Time) -> Obj)
    requires TurnsTo(w, d, w', content) && Still(w, start, content)
    ensures Still(w', start, content)
    ensures EqualAt(w', d) && forall x | EqualAt(w, x) :: EqualAt(w', x)
  {
    assert Clean(w.devs[d], w.log);
  }

  /** In the second round nothing is written, and the devices come to equal the server one by one. */
  lemma EqualitySpreads(start: World, content: (Uuid, Time) -> Obj, inv: World -> bool)
    requires Orderly(content)
    requires inv == (w => Still(w, start, content))
    ensures Carries(inv, EqualAt)
  {
    forall w, t: Turn | Tidy(w) && Has(w, t.device) && inv(w)
      ensures inv(FullNext(w, t)) && EqualAt(FullNext(w, t), t.device)
      ensures forall x | EqualAt(w, x) :: EqualAt(FullNext(w, t), x)
    {
      StillFullNext(w, t, start, content);
    }
  }

  lemma StillFullNext(w: World, t: Turn, start: World, content: (Uuid, Time) -> Obj)
    requires Orderly(content) && Tidy(w) && Has(w, t.device) && Still(w, start, content)
    ensures Still(FullNext(w, t), start, content)
    ensures EqualAt(FullNext(w, t), t.device) && forall x | EqualAt(w, x) :: EqualAt(FullNext(w, t), x)
  {
    TurnOf(w, t, content);
    StillTurn(w, t.device, FullNext(w, t), start, content);
  }

  lemma {:induction false} RunKeepsInv(w: World, events: seq<Event>, content: (Uuid, Time) -> Obj)
    requires Orderly(content) && Tidy(w) && Inv(w, content) && Legal(w, events, content)
    ensures Inv(After(w, events, content), content)
    decreases |events|
  {
    if events != [] {
      StepKeepsInv(w, events[0], content);
      RunKeepsInv(Next(w, events[0]), events[1..], content);
    }
  }

  /** Before anything was synced: an empty server, and devices whose tracking state knows nothing. */
  ghost predicate Start0(w: World, content: (Uuid, Time) -> Obj) {
    && w.log == []
    && (forall d | 0 <= d < |w.devs| ::
          && GenuineFile(content, w.devs[d].file) && Closed(w.devs[d].file)
          && w.devs[d].tracked.lastSeq == 0 && w.devs[d].tracked.known == []
          && forall u, t :: !AtLeast(w.devs[d].tracked.states, u, t))
    && AllMade(w)
    && (forall m | m in w.made ::
          exists d :: 0 <= d < |w.devs| && m.0 in w.devs[d].file && m.1.mod <= w.devs[d].file[m.0].mod)
  }

  lemma StartIsGood(w: World, content: (Uuid, Time) -> Obj)
    requires Start0(w, content)
    ensures Inv(w, content) && Tidy(w)
  {
    forall d | 0 <= d < |w.devs| ensures GoodDev(w.devs[d], w.log, content) {
    }
    forall m | m in w.made ensures Kept(w, m.0, m.1.mod) {
    }
    InvIsTidy(w, content);
  }

  lemma ReachableStatesAreGood(w: World, events: seq<Event>, content: (Uuid, Time) -> Obj)
    requires Orderly(content) && Start0(w, content) && Tidy(w) && Legal(w, events, content)
    ensures Inv(After(w, events, content), content)
  {
    StartIsGood(w, content);
    RunKeepsInv(w, events, content);
  }

  /** Every device holds the server's map, and that map holds the latest version ever made of each object. */
  ghost predicate Converged(w: World) {
    && (forall d | 0 <= d < |w.devs| :: w.devs[d].file == ServerMap(w.log))
    && (forall m | m in w.made :: m.0 in ServerMap(w.log) && m.1.mod <= ServerMap(w.log)[m.0].mod)
    && (forall u | u in ServerMap(w.log) :: (u, ServerMap(w.log)[u]) in w.made)
  }

  lemma EqualFilesAreConverged(w: World, content: (Uuid, Time) -> Obj)
    requires Inv(w, content)
    requires forall d | 0 <= d < |w.devs| :: w.devs[d].file == ServerMap(w.log)
    ensures Converged(w)
  {
    forall m | m in w.made ensures m.0 in ServerMap(w.log) && m.1.mod <= ServerMap(w.log)[m.0].mod {
      assert Kept(w, m.0, m.1.mod);
      ServerMapIs(w.log, m.0);
    }
    forall u | u in ServerMap(w.log) ensures (u, ServerMap(w.log)[u]) in w.made {
      ServerMapIs(w.log, u);
    }
  }

  /**
   Convergence. Take any number of devices and any run of edits, failed pulls, and syncs that went through or
   failed part-way, with their tracking state kept or dropped. After the last edit let every device complete
   one cycle, in any order and any number of times, and then one more. Then every local database equals the
   server's map, and each object in it is the latest version ever made of it anywhere.
   */
  lemma Converges(w: World, events: seq<Event>, round1: seq<Turn>, round2: seq<Turn>,
                  content: (Uuid, Time) -> Obj)
    requires Orderly(content) && Start0(w, content) && Tidy(w) && Legal(w, events, content)
    requires EveryoneIn(w, round1) && EveryoneIn(w, round2)
    ensures var e := After(w, events, content);
            var r := Round(Round(e, round1), round2);
            Converged(r) && r.made == e.made
  {
    ReachableStatesAreGood(w, events, content);
    RoundsConverge(After(w, events, content), round1, round2, content);
  }

  lemma RoundsConverge(e: World, round1: seq<Turn>, round2: seq<Turn>, content: (Uuid, Time) -> Obj)
    requires Orderly(content) && Inv(e, content) && Tidy(e)
    requires EveryoneIn(e, round1) && EveryoneIn(e, round2)
    ensures Converged(Round(Round(e, round1), round2)) && Round(Round(e, round1), round2).made == e.made
  {
    var f := Round(e, round1);
    FirstRound(e, round1, content);
    SecondRound(f, round2, content);
    EqualFilesAreConverged(Round(f, round2), content);
  }

  lemma FirstRound(e: World, turns: seq<Turn>, content: (Uuid, Time) -> Obj)
    requires Orderly(content) && Inv(e, content) && Tidy(e) && EveryoneIn(e, turns)
    ensures var f := Round(e, turns);
            Inv(f, content) && f.made == e.made && forall k | 0 <= k < |f.devs| :: Clean(f.devs[k], f.log)
  {
    var inv := w => Inv(w, content) && w.made == e.made && |w.devs| == |e.devs|;
    CleanSpreads(e, content, inv);
    RoundOfAll(e, turns, inv, CleanAt);
    var f := Round(e, turns);
    forall k | 0 <= k < |f.devs| ensures Clean(f.devs[k], f.log) {
      assert CleanAt(f, k);
    }
  }

  lemma SecondRound(f: World, turns: seq<Turn>, content: (Uuid, Time) -> Obj)
    requires Orderly(content) && Inv(f, content) && Tidy(f) && EveryoneIn(f, turns)
    requires forall k | 0 <= k < |f.devs| :: Clean(f.devs[k], f.log)
    ensures var r := Round(f, turns);
            && Inv(r, content) && r.made == f.made && r.log == f.log
            && forall k | 0 <= k < |r.devs| :: r.devs[k].file == ServerMap(r.log)
  {
    var inv := w => Still(w, f, content);
    EqualitySpreads(f, content, inv);
    RoundOfAll(f, turns, inv, EqualAt);
    var r := Round(f, turns);
    forall k | 0 <= k < |r.devs| ensures r.devs[k].file == ServerMap(r.log) {
      assert EqualAt(r, k);
    }
  }
}
