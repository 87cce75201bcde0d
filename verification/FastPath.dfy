/**
 The daemon's sync cycle (client/cmd/keepass-deltasync/daemon.go, `doSync`) and its fast path: when the
 pull brought nothing and the file has the stamp of the last successful push, the push is skipped.
 */
module FastPath {
  import opened Basics
  import opened Tracking
  import opened GroupTree
  import opened PushSide
  import opened PullSide
  import opened Commands

  datatype FileStamp = FileStamp(ok: bool, size: nat, mod: Time)

  predicate Same(a: FileStamp, b: FileStamp) {
    a.ok && b.ok && a.size == b.size && a.mod == b.mod
  }

  // What one cycle meets: the pull, the stamp read after it, what the export then reads (None when it
  // fails), the network, and whether saving the config works.
  datatype CycleEnv = CycleEnv(cancelled: bool, penv: PullEnv, before: FileStamp, push: PushEnv, saveOk: bool)

  datatype Worker = Worker(tracked: Tracked, disk: Tracked, pushedStat: FileStamp)

  predicate Skips(w: Worker, env: CycleEnv) {
    var r := Pull(w.tracked, env.penv);
    !env.cancelled && r.ok && r.merged == 0 && r.deleted == 0 && Same(w.pushedStat, env.before)
  }

  function Save(w: Worker, saveOk: bool): Worker {
    if saveOk then w.(disk := w.tracked) else w
  }

  function Cycle(w: Worker, env: CycleEnv): Worker {
    if env.cancelled then w else
    var r := Pull(w.tracked, env.penv);
    if !r.ok then w.(tracked := r.tracked) else
    var w1 := w.(tracked := r.tracked.(lastSeq := r.newSeq));
    if Skips(w, env) then
      if r.newSeq != w.tracked.lastSeq then Save(w1, env.saveOk) else w1
    else if env.push.exported.None? then Save(w1, env.saveOk)
    else
      var p := Push(w1.tracked, env.push.exported.value, env.push.now, env.push.replies);
      var w2 := Save(w1.(tracked := p.tracked.(lastSeq := Max(r.newSeq, p.maxSeq))), env.saveOk);
      if p.failed || !env.saveOk then w2 else w2.(pushedStat := env.before)
  }

  class DbWorker {
    const db: Database
    const cfg: ConfigFile
    var pushedStat: FileStamp

    function View(): Worker
      reads this, db, cfg
    {
      Worker(db.View(), cfg.stored, pushedStat)
    }

    constructor (db: Database, cfg: ConfigFile)
      ensures this.db == db && this.cfg == cfg && !pushedStat.ok
    {
      this.db := db;
      this.cfg := cfg;
      this.pushedStat := FileStamp(false, 0, 0);
    }

    method Persist(saveOk: bool)
      modifies cfg
      ensures cfg.stored == if saveOk then db.View() else old(cfg.stored)
    {
      if saveOk {
        cfg.stored := db.View();
      }
    }

    method DoSync(env: CycleEnv)
      modifies this`pushedStat, db, cfg
      ensures View() == Cycle(old(View()), env)
    {
      if env.cancelled {
        return;
      }
      ghost var t0 := db.View();
      var newSeq, merged, deleted, staged, pulled := PullChanges(db, env.penv);
      PullTracks(t0, env.penv);
      if !pulled {
        return;
      }
      var before := env.before;
      if merged == 0 && deleted == 0 && Same(pushedStat, before) {
        if newSeq != db.LastSeq {
          db.LastSeq := newSeq;
          Persist(env.saveOk);
        }
        return;
      }
      if env.push.exported.None? {
        db.LastSeq := newSeq;
        Persist(env.saveOk);
        return;
      }
      ghost var mid := db.View();
      LastSeqPassesThrough(mid, newSeq, env.push.exported.value, env.push.now, env.push.replies);
      var sent, maxPushSeq, pushed := PushChanges(db, env.push.exported.value, env.push.now, env.push.replies);
      if maxPushSeq > newSeq {
        newSeq := maxPushSeq;
      }
      db.LastSeq := newSeq;
      Persist(env.saveOk);
      if !pushed || !env.saveOk {
        return;
      }
      pushedStat := before;
    }
  }

  // ---------------------------------------------------------------- the daemon as a run of pulls and pushes

  predicate Pushes(w: Worker, env: CycleEnv) {
    !env.cancelled && Pull(w.tracked, env.penv).ok && !Skips(w, env) && env.push.exported.Some?
  }

  /** The pulls and pushes a cycle consists of. The daemon keeps what each of them recorded, failed or not. */
  function EventsOf(w: Worker, env: CycleEnv): seq<Event> {
    (if env.cancelled then [] else [Pulled(env.penv, true)])
    + (if Pushes(w, env) then [Pushed(env.push.exported.value, env.push.now, env.push.replies, true)] else [])
  }

  lemma RunEventsOf(t: Tracked, e: Event)
    ensures RunEvents(t, [e]).0 == After(t, e)
  {
    assert [e][..0] == [];
  }

  lemma RunEventsOfTwo(t: Tracked, e: Event, f: Event)
    ensures RunEvents(t, [e] + [f]).0 == After(After(t, e), f)
  {
    assert ([e] + [f])[..1] == [e];
    RunEventsOf(t, e);
  }

  /** What the cycle does to the tracking state, as kept pulls and pushes. */
  lemma CycleAsEvents(w: Worker, env: CycleEnv)
    ensures !env.cancelled && !Pushes(w, env) ==> Cycle(w, env).tracked == After(w.tracked, Pulled(env.penv, true))
    ensures Pushes(w, env) ==>
              Cycle(w, env).tracked
              == After(After(w.tracked, Pulled(env.penv, true)),
                       Pushed(env.push.exported.value, env.push.now, env.push.replies, true))
  {}

  /** A cycle, skipped or full, failed or not, leaves the tracking state those pulls and pushes leave. */
  lemma CycleIsARun(w: Worker, env: CycleEnv)
    ensures RunEvents(w.tracked, EventsOf(w, env)).0 == Cycle(w, env).tracked
  {
    var pulled := Pulled(env.penv, true);
    CycleAsEvents(w, env);
    if Pushes(w, env) {
      RunEventsOfTwo(w.tracked, pulled, Pushed(env.push.exported.value, env.push.now, env.push.replies, true));
    } else if !env.cancelled {
      RunEventsOf(w.tracked, pulled);
      assert EventsOf(w, env) == [pulled];
    }
  }

  function RunCycles(w: Worker, envs: seq<CycleEnv>): Worker {
    if envs == [] then w else var n := |envs| - 1; Cycle(RunCycles(w, envs[..n]), envs[n])
  }

  /** All the pulls and pushes of a run of cycles. */
  function AllEvents(w: Worker, envs: seq<CycleEnv>): seq<Event> {
    if envs == [] then []
    else var n := |envs| - 1; AllEvents(w, envs[..n]) + EventsOf(RunCycles(w, envs[..n]), envs[n])
  }

  lemma {:induction false} RunEventsConcat(t: Tracked, a: seq<Event>, b: seq<Event>)
    ensures RunEvents(t, a + b).0 == RunEvents(RunEvents(t, a).0, b).0
  {
    if b == [] {
      assert a + b == a;
    } else {
      assert (a + b)[..|a + b| - 1] == a + b[..|b| - 1];
      RunEventsConcat(t, a, b[..|b| - 1]);
    }
  }

  /**
   The daemon never uploads a version twice: over any run of cycles, with failed pulls, pushes and saves among
   them, recorded times never move back and the triggers of the uploads of one UUID strictly increase.
   */
  lemma DaemonUploadsLater(w: Worker, envs: seq<CycleEnv>)
    requires forall i | 0 <= i < |envs| :: WholeExport(envs[i])
    ensures var (t, sent) := RunEvents(w.tracked, AllEvents(w, envs));
            && t == RunCycles(w, envs).tracked
            && NotBelow(w.tracked.states, t.states) && StrictlyLater(sent)
  {
    CyclesAreARun(w, envs);
    AllAreKept(w, envs);
    NoVersionUploadedTwice(w.tracked, AllEvents(w, envs));
  }

  lemma {:induction false} CyclesAreARun(w: Worker, envs: seq<CycleEnv>)
    ensures RunEvents(w.tracked, AllEvents(w, envs)).0 == RunCycles(w, envs).tracked
  {
    if envs != [] {
      var n := |envs| - 1;
      CyclesAreARun(w, envs[..n]);
      var u := RunCycles(w, envs[..n]);
      CycleIsARun(u, envs[n]);
      RunEventsConcat(w.tracked, AllEvents(w, envs[..n]), EventsOf(u, envs[n]));
    }
  }

  predicate WholeExport(env: CycleEnv) {
    env.push.exported.Some? ==> WholeItems(Timestamped(env.push.exported.value))
  }

  lemma EventsAreKept(w: Worker, env: CycleEnv)
    requires WholeExport(env)
    ensures forall e | e in EventsOf(w, env) :: e.kept && WholeEvent(e)
  {}

  lemma {:induction false} AllAreKept(w: Worker, envs: seq<CycleEnv>)
    requires forall i | 0 <= i < |envs| :: WholeExport(envs[i])
    ensures forall e | e in AllEvents(w, envs) :: e.kept && WholeEvent(e)
  {
    if envs != [] {
      var n := |envs| - 1;
      AllAreKept(w, envs[..n]);
      EventsAreKept(RunCycles(w, envs[..n]), envs[n]);
    }
  }

  // ---------------------------------------------------------------- what survives a restart

  /** Nothing on the server is new to the worker, and it decides not to push. */
  predicate Idles(w: Worker, env: CycleEnv) {
    Skips(w, env) && Pull(w.tracked, env.penv).newSeq == w.tracked.lastSeq
  }

  /** The cycle writes the config. */
  predicate Saves(w: Worker, env: CycleEnv) {
    !env.cancelled && env.saveOk && Pull(w.tracked, env.penv).ok && !Idles(w, env)
  }

  /**
   A cycle that got through its pull leaves on disk all that it knows, if the config can be saved: also when the
   export fails, and when the push fails part-way. Only an idle cycle does not write. Whatever fails before, or fails
   to be saved, leaves the disk as it was.
   */
  lemma CycleSavesAllItKnows(w: Worker, env: CycleEnv)
    ensures var v := Cycle(w, env);
            && (Saves(w, env) ==> v.disk == v.tracked)
            && (!Saves(w, env) ==> v.disk == w.disk)
  {}

  /** What it knows: the number the server was at, or a later one of its own uploads. */
  lemma CycleAdvances(w: Worker, env: CycleEnv)
    requires !env.cancelled && Pull(w.tracked, env.penv).ok
    ensures var v, seqNo := Cycle(w, env), Pull(w.tracked, env.penv).newSeq;
            && env.penv.response.Some? && seqNo == env.penv.response.value.currentSeq
            && v.tracked.lastSeq >= seqNo && (!Pushes(w, env) ==> v.tracked.lastSeq == seqNo)
  {
    CycleAsEvents(w, env);
    PullTracks(w.tracked, env.penv);
  }

  /** The stamp changes only with a push that goes through and is saved, to the one taken before its export. */
  lemma StampIsFromBefore(w: Worker, env: CycleEnv)
    ensures Cycle(w, env).pushedStat == if Stamps(w, env) then env.before else w.pushedStat
  {}

  /** A cycle that did not get through its pull keeps LastSeq, so what it has read is offered again. */
  lemma FailedPullStays(w: Worker, env: CycleEnv)
    requires env.cancelled || !Pull(w.tracked, env.penv).ok
    ensures Cycle(w, env).tracked.lastSeq == w.tracked.lastSeq && Cycle(w, env).tracked.known == w.tracked.known
    ensures Cycle(w, env).disk == w.disk && Cycle(w, env).pushedStat == w.pushedStat
  {
    PullTracks(w.tracked, env.penv);
  }

  /** After a complete cycle, one that finds nothing new and the file untouched takes the fast path: it only pulls. */
  lemma StampedThenSkips(w: Worker, env: CycleEnv, next: CycleEnv)
    requires Stamps(w, env) && env.before.ok && next.before == env.before
    requires !next.cancelled && next.penv.response.Some? && next.penv.response.value.changes == []
    ensures Skips(Cycle(w, env), next) && !Pushes(Cycle(w, env), next)
    ensures Cycle(Cycle(w, env), next).tracked.states == Cycle(w, env).tracked.states
  {}

  /** How many cycles had run when the disk was last written. */
  function LastSaved(w: Worker, envs: seq<CycleEnv>): (k: nat)
    ensures k <= |envs|
  {
    if envs == [] then 0
    else
      var n := |envs| - 1;
      if Saves(RunCycles(w, envs[..n]), envs[n]) then n + 1 else LastSaved(w, envs[..n])
  }

  /** The disk always holds what the worker knew then. */
  lemma {:induction false} DiskIsLastSave(w: Worker, envs: seq<CycleEnv>)
    requires w.disk == w.tracked
    ensures RunCycles(w, envs).disk == RunCycles(w, envs[..LastSaved(w, envs)]).tracked
  {
    if envs != [] {
      var n := |envs| - 1;
      DiskIsLastSave(w, envs[..n]);
      CycleSavesAllItKnows(RunCycles(w, envs[..n]), envs[n]);
      var k := LastSaved(w, envs);
      if k == n + 1 {
        assert envs[..k] == envs;
      } else {
        assert envs[..n][..k] == envs[..k];
      }
    }
  }

  /** The daemon as it starts up from its config file. */
  function Restarted(w: Worker): Worker {
    Worker(w.disk, w.disk, FileStamp(false, 0, 0))
  }

  lemma {:induction false} RunEventsSent(t: Tracked, a: seq<Event>, b: seq<Event>)
    ensures RunEvents(t, a + b).1 == RunEvents(t, a).1 + RunEvents(RunEvents(t, a).0, b).1
  {
    if b == [] {
      assert a + b == a;
    } else {
      var n := |b| - 1;
      var front, u := b[..n], RunEvents(t, a).0;
      assert a + b == (a + front) + [b[n]] && b == front + [b[n]];
      RunEventsSent(t, a, front);
      RunEventsConcat(t, a, front);
      RunEventsAppend(t, a + front, b[n]);
      RunEventsAppend(u, front, b[n]);
      Associative(RunEvents(t, a).1, RunEvents(u, front).1, Sent(RunEvents(u, front).0, b[n]));
    }
  }

  lemma Associative(a: seq<Item>, b: seq<Item>, c: seq<Item>)
    ensures (a + b) + c == a + (b + c)
  {}

  /**
   A restart repeats no upload of the cycles up to the last save: over those and all that follows the restart, the
   triggers of the uploads of one UUID strictly increase, whatever the daemon did in between that it could not save.
   */
  lemma RestartRepeatsNothingSaved(w: Worker, envs: seq<CycleEnv>, more: seq<CycleEnv>)
    requires w.disk == w.tracked
    requires forall i | 0 <= i < |envs| :: WholeExport(envs[i])
    requires forall i | 0 <= i < |more| :: WholeExport(more[i])
    ensures var saved := envs[..LastSaved(w, envs)];
            var u := Restarted(RunCycles(w, envs));
            StrictlyLater(RunEvents(w.tracked, AllEvents(w, saved)).1 + RunEvents(u.tracked, AllEvents(u, more)).1)
  {
    var saved := envs[..LastSaved(w, envs)];
    var u := Restarted(RunCycles(w, envs));
    DiskIsLastSave(w, envs);
    CyclesAreARun(w, saved);
    AllAreKept(w, saved);
    AllAreKept(u, more);
    RunEventsSent(w.tracked, AllEvents(w, saved), AllEvents(u, more));
    NoVersionUploadedTwice(w.tracked, AllEvents(w, saved) + AllEvents(u, more));
  }

  // ---------------------------------------------------------------- the file over time

  // Every write of the database file, by the user or by a merge, in order.
  datatype FileVersion = FileVersion(stamp: FileStamp, content: Export)

  // A cycle reads the stamp of version `at` (or fails to) and exports version `ex`; the user may save between.
  datatype Turn = Turn(env: CycleEnv, at: nat, ex: nat)

  /** Every write yields a stamp of its own, and exports carry whole-second times. */
  ghost predicate FreshStamps(files: seq<FileVersion>) {
    && (forall i, j :: 0 <= i < j < |files| ==> !Same(files[i].stamp, files[j].stamp))
    && (forall i | 0 <= i < |files| :: WholeItems(Timestamped(files[i].content)))
  }

  ghost predicate Sees(turn: Turn, files: seq<FileVersion>) {
    && turn.at <= turn.ex < |files|
    && (turn.env.before.ok ==> Same(turn.env.before, files[turn.at].stamp))
    && (turn.env.push.exported.Some? ==> turn.env.push.exported.value == files[turn.ex].content)
  }

  /** The turns read the file at points that only move forward. */
  ghost predicate InOrder(turns: seq<Turn>, files: seq<FileVersion>) {
    && (forall i | 0 <= i < |turns| :: Sees(turns[i], files))
    && (forall i | 0 < i < |turns| :: turns[i - 1].ex <= turns[i].at)
  }

  function Cursor(turns: seq<Turn>): nat {
    if turns == [] then 0 else turns[|turns| - 1].ex
  }

  function RunTurns(w: Worker, turns: seq<Turn>): Worker {
    if turns == [] then w else var n := |turns| - 1; Cycle(RunTurns(w, turns[..n]), turns[n].env)
  }

  /** This cycle takes a stamp: it pushes, and both the push and the save succeed. */
  predicate Stamps(w: Worker, env: CycleEnv) {
    var r := Pull(w.tracked, env.penv);
    && Pushes(w, env) && env.saveOk
    && !Push(r.tracked.(lastSeq := r.newSeq), env.push.exported.value, env.push.now, env.push.replies).failed
  }

  /** This cycle's push is not one the group guard refuses. */
  ghost predicate GuardAccepts(w: Worker, env: CycleEnv) {
    env.push.exported.Some? ==> !Refused(Pull(w.tracked, env.penv).tracked.known, env.push.exported.value)
  }

  /** The guard did not refuse the last successful push, the one whose stamp stands. */
  ghost predicate LastAccepted(w: Worker, turns: seq<Turn>) {
    turns == []
    || var n := |turns| - 1;
       var u := RunTurns(w, turns[..n]);
       if Stamps(u, turns[n].env) then GuardAccepts(u, turns[n].env) else LastAccepted(w, turns[..n])
  }

  ghost predicate AllKnown(t: Tracked, x: Export) {
    forall it | it in Timestamped(x) :: AtLeast(t.states, it.uuid, it.trigger)
  }

  ghost predicate GroupsPresent(t: Tracked, x: Export) {
    forall u | u in t.known :: u in GroupUuids(x.groups)
  }

  /**
   The stamp of the last successful push is the stamp of some version `i` already read; and unless the file
   has moved on since, everything in that version is known to the tracking state.
   */
  ghost predicate StampTells(w: Worker, files: seq<FileVersion>, cursor: nat, i: nat, calm: bool) {
    && i <= cursor < |files| && Same(w.pushedStat, files[i].stamp)
    && (i == cursor ==> AllKnown(w.tracked, files[i].content))
    && (i == cursor && calm ==> GroupsPresent(w.tracked, files[i].content))
  }

  ghost predicate Inv(w: Worker, files: seq<FileVersion>, cursor: nat, calm: bool) {
    w.pushedStat.ok ==> exists i :: StampTells(w, files, cursor, i, calm)
  }

  lemma PushRaises(t: Tracked, x: Export, now: Time, replies: seq<Reply>)
    requires WholeItems(Timestamped(x))
    ensures var r := Push(t, x, now, replies);
            && NotBelow(t.states, r.tracked.states)
            && (r.tracked.known == t.known || r.tracked.known == SortedSeq(GroupUuids(x.groups)))
  {
    PushUploadsLater(t, x, now, replies, []);
  }

  /** A successful push of what the file held when it was stamped leaves nothing unknown. */
  lemma PushKnowsAll(t: Tracked, x: Export, now: Time, replies: seq<Reply>)
    requires WholeItems(Timestamped(x)) && !Push(t, x, now, replies).failed
    ensures AllKnown(Push(t, x, now, replies).tracked, x)
    ensures !Refused(t.known, x) ==> GroupsPresent(Push(t, x, now, replies).tracked, x)
  {
    PushQuiesces(t, x, now, replies, Push(t, x, now, replies).tracked);
  }

  /** Over a cycle recorded times rise, and known groups are those known before or exported now. */
  lemma CycleRaises(w: Worker, env: CycleEnv)
    requires WholeExport(env)
    ensures var v := Cycle(w, env);
            && NotBelow(w.tracked.states, v.tracked.states)
            && forall u | u in v.tracked.known ::
                 u in w.tracked.known || (Pushes(w, env) && u in GroupUuids(env.push.exported.value.groups))
  {
    if !env.cancelled {
      CycleAsEvents(w, env);
      PullRaises(w.tracked, env.penv);
      var t := After(w.tracked, Pulled(env.penv, true));
      if Pushes(w, env) {
        PushRaises(t, env.push.exported.value, env.push.now, env.push.replies);
      }
    }
  }

  lemma PullRaises(t: Tracked, penv: PullEnv)
    ensures var u := After(t, Pulled(penv, true));
            NotBelow(t.states, u.states) && forall g | g in u.known :: g in t.known
  {
    PullTracks(t, penv);
  }

  lemma OldStampStillTells(w: Worker, turn: Turn, files: seq<FileVersion>, cursor: nat, calm: bool)
    requires FreshStamps(files) && Sees(turn, files) && cursor <= turn.at
    requires Inv(w, files, cursor, calm) && !Stamps(w, turn.env)
    ensures Inv(Cycle(w, turn.env), files, turn.ex, calm)
  {
    CycleRaises(w, turn.env);
    StampIsFromBefore(w, turn.env);
    if w.pushedStat.ok {
      var i :| StampTells(w, files, cursor, i, calm);
      assert StampTells(Cycle(w, turn.env), files, turn.ex, i, calm);
    }
  }

  lemma CycleKeepsInv(w: Worker, turn: Turn, files: seq<FileVersion>, cursor: nat, calm: bool)
    requires FreshStamps(files) && Sees(turn, files) && cursor <= turn.at
    requires Inv(w, files, cursor, calm)
    ensures Inv(Cycle(w, turn.env), files, turn.ex, if Stamps(w, turn.env) then GuardAccepts(w, turn.env) else calm)
  {
    var env := turn.env;
    if Stamps(w, env) {
      var r := Pull(w.tracked, env.penv);
      PushKnowsAll(r.tracked.(lastSeq := r.newSeq), files[turn.ex].content, env.push.now, env.push.replies);
      if env.before.ok {
        assert StampTells(Cycle(w, env), files, turn.ex, turn.at, GuardAccepts(w, env));
      }
    } else {
      OldStampStillTells(w, turn, files, cursor, calm);
    }
  }

  lemma InOrderFront(turns: seq<Turn>, files: seq<FileVersion>)
    requires turns != [] && InOrder(turns, files)
    ensures var n := |turns| - 1;
            InOrder(turns[..n], files) && Sees(turns[n], files) && Cursor(turns[..n]) <= turns[n].at
    ensures |turns| > 1 ==> Cursor(turns[..|turns| - 1]) == turns[|turns| - 2].ex
  {}

  lemma {:induction false} RunKeepsInv(w: Worker, turns: seq<Turn>, files: seq<FileVersion>)
    requires FreshStamps(files) && InOrder(turns, files) && !w.pushedStat.ok
    ensures Inv(RunTurns(w, turns), files, Cursor(turns), LastAccepted(w, turns))
  {
    if turns != [] {
      var n := |turns| - 1;
      InOrderFront(turns, files);
      RunKeepsInv(w, turns[..n], files);
      CycleKeepsInv(RunTurns(w, turns[..n]), turns[n], files, Cursor(turns[..n]), LastAccepted(w, turns[..n]));
    }
  }

  /** On the skip path, everything the stamped version holds is known, and the pull changes that for no group. */
  lemma SkipMeetsStampedVersion(w: Worker, turn: Turn, files: seq<FileVersion>, cursor: nat, calm: bool)
    requires FreshStamps(files) && Sees(turn, files) && cursor <= turn.at
    requires Inv(w, files, cursor, calm) && Skips(w, turn.env)
    ensures AllKnown(Cycle(w, turn.env).tracked, files[turn.at].content)
    ensures calm ==> GroupsPresent(Cycle(w, turn.env).tracked, files[turn.at].content)
  {
    PullTracks(w.tracked, turn.env.penv);
    var i :| StampTells(w, files, cursor, i, calm);
    assert i == turn.at;
  }

  /**
   The fast path refines the full cycle. In any run from start-up in which no stamp is reused, if the group guard
   did not refuse the last successful push, whenever a cycle skips the push, pushing the file as it was stamped
   would have issued no request at all, whatever the network had answered — also when the user saved between
   stamping and export in earlier cycles, and across failed pulls, failed pushes and failed saves.
   */
  lemma SkipRefinesPush(w: Worker, turns: seq<Turn>, turn: Turn, files: seq<FileVersion>, now: Time, replies: seq<Reply>)
    requires FreshStamps(files) && InOrder(turns, files) && !w.pushedStat.ok
    requires Sees(turn, files) && Cursor(turns) <= turn.at
    requires LastAccepted(w, turns)
    requires Skips(RunTurns(w, turns), turn.env)
    ensures var t := Cycle(RunTurns(w, turns), turn.env).tracked;
            var p := Push(t, files[turn.at].content, now, replies);
            p.sent == [] && !p.failed && p.tracked.states == t.states
  {
    RunKeepsInv(w, turns, files);
    SkipMeetsStampedVersion(RunTurns(w, turns), turn, files, Cursor(turns), true);
    var t := Cycle(RunTurns(w, turns), turn.env).tracked;
    MissingAll(t.known, GroupUuids(files[turn.at].content.groups));
    SilentIff(t, files[turn.at].content, now, replies);
  }

  lemma InvWithoutGuard(w: Worker, files: seq<FileVersion>, cursor: nat, calm: bool)
    requires Inv(w, files, cursor, calm)
    ensures Inv(w, files, cursor, false)
  {
    if w.pushedStat.ok {
      var i :| StampTells(w, files, cursor, i, calm);
      assert StampTells(w, files, cursor, i, false);
    }
  }

  /**
   Without the proviso on the guard, a skipped push was due exactly when known groups are missing from the
   file and the guard would accept deleting them now: entries, groups and entry tombstones are never at stake.
   */
  lemma SkipWasDueIff(w: Worker, turns: seq<Turn>, turn: Turn, files: seq<FileVersion>)
    requires FreshStamps(files) && InOrder(turns, files) && !w.pushedStat.ok
    requires Sees(turn, files) && Cursor(turns) <= turn.at
    requires Skips(RunTurns(w, turns), turn.env)
    ensures var t, x := Cycle(RunTurns(w, turns), turn.env).tracked, files[turn.at].content;
            !Silent(t, x) <==> Missing(t.known, GroupUuids(x.groups)) != [] && !Refused(t.known, x)
  {
    RunKeepsInv(w, turns, files);
    InvWithoutGuard(RunTurns(w, turns), files, Cursor(turns), LastAccepted(w, turns));
    SkipMeetsStampedVersion(RunTurns(w, turns), turn, files, Cursor(turns), false);
  }

  // ---------------------------------------------------------------- when merges write the file

  /** The pull of this cycle brought changes and merged them. */
  predicate Merges(w: Worker, env: CycleEnv) {
    !env.cancelled && Pull(w.tracked, env.penv).ok && env.penv.response.Some? && env.penv.response.value.changes != []
  }

  /** Every merge writes the file: the cycle then meets a later version than the one before it left. */
  ghost predicate MergesWrite(w: Worker, turns: seq<Turn>) {
    turns == []
    || var n := |turns| - 1;
       MergesWrite(w, turns[..n])
       && (Merges(RunTurns(w, turns[..n]), turns[n].env) ==> n == 0 || turns[n - 1].ex < turns[n].at)
  }

  /** Unless the file has moved on, its groups are the known ones, or the guard still refuses to delete those missing. */
  ghost predicate StampHolds(w: Worker, files: seq<FileVersion>, cursor: nat, i: nat) {
    && i <= cursor < |files| && Same(w.pushedStat, files[i].stamp)
    && (i == cursor ==> Silent(w.tracked, files[i].content))
  }

  ghost predicate Holding(w: Worker, files: seq<FileVersion>, cursor: nat) {
    w.pushedStat.ok ==> exists i :: StampHolds(w, files, cursor, i)
  }

  /** A pull that merges nothing changes no known group and forgets no time. */
  lemma PullWithoutMerge(w: Worker, env: CycleEnv, x: Export)
    requires !Merges(w, env) && Silent(w.tracked, x)
    ensures Silent(Pull(w.tracked, env.penv).tracked.(lastSeq := 0), x) || env.cancelled
  {
    PullTracks(w.tracked, env.penv);
  }

  /** A push of an export about which nothing is due leaves nothing due. */
  lemma SilentPushStays(t: Tracked, x: Export, now: Time, replies: seq<Reply>)
    requires Silent(t, x)
    ensures Silent(Push(t, x, now, replies).tracked, x)
  {
    SilentIff(t, x, now, replies);
    var r := Push(t, x, now, replies);
    KnownAfterPush(t, x, now, replies);
  }

  /** And an error-free push leaves nothing due in any case. */
  lemma PushedIsSilent(t: Tracked, x: Export, now: Time, replies: seq<Reply>)
    requires WholeItems(Timestamped(x)) && !Push(t, x, now, replies).failed
    ensures Silent(Push(t, x, now, replies).tracked, x)
  {
    PushQuiesces(t, x, now, replies, Push(t, x, now, replies).tracked);
  }

  lemma SilentAnyLastSeq(t: Tracked, x: Export, n: int)
    ensures Silent(t, x) <==> Silent(t.(lastSeq := n), x)
  {}

  lemma HeldStampHolds(w: Worker, turn: Turn, files: seq<FileVersion>, cursor: nat)
    requires FreshStamps(files) && Sees(turn, files) && cursor <= turn.at
    requires Holding(w, files, cursor) && !Stamps(w, turn.env)
    requires Merges(w, turn.env) ==> cursor < turn.at
    ensures Holding(Cycle(w, turn.env), files, turn.ex)
  {
    var env := turn.env;
    var v := Cycle(w, env);
    assert v.pushedStat == w.pushedStat;
    if w.pushedStat.ok {
      var i :| StampHolds(w, files, cursor, i);
      if i == turn.ex {
        NotMovedOn(w, turn, files, cursor);
      }
      assert StampHolds(v, files, turn.ex, i);
    }
  }

  lemma NotMovedOn(w: Worker, turn: Turn, files: seq<FileVersion>, cursor: nat)
    requires Sees(turn, files) && cursor == turn.ex && !Merges(w, turn.env)
    requires Silent(w.tracked, files[cursor].content)
    ensures Silent(Cycle(w, turn.env).tracked, files[cursor].content)
  {
    var env, x := turn.env, files[cursor].content;
    if !env.cancelled {
      PullWithoutMerge(w, env, x);
      var r := Pull(w.tracked, env.penv);
      SilentAnyLastSeq(r.tracked, x, 0);
      SilentAnyLastSeq(r.tracked, x, r.newSeq);
      if Pushes(w, env) {
        var p := Push(r.tracked.(lastSeq := r.newSeq), x, env.push.now, env.push.replies);
        SilentPushStays(r.tracked.(lastSeq := r.newSeq), x, env.push.now, env.push.replies);
        SilentAnyLastSeq(p.tracked, x, Max(r.newSeq, p.maxSeq));
      }
    }
  }

  lemma CycleKeepsHolding(w: Worker, turn: Turn, files: seq<FileVersion>, cursor: nat)
    requires FreshStamps(files) && Sees(turn, files) && cursor <= turn.at
    requires Holding(w, files, cursor)
    requires Merges(w, turn.env) && w.pushedStat.ok ==> cursor < turn.at
    ensures Holding(Cycle(w, turn.env), files, turn.ex)
  {
    var env := turn.env;
    if Stamps(w, env) {
      var r := Pull(w.tracked, env.penv);
      var p := Push(r.tracked.(lastSeq := r.newSeq), env.push.exported.value, env.push.now, env.push.replies);
      PushedIsSilent(r.tracked.(lastSeq := r.newSeq), files[turn.ex].content, env.push.now, env.push.replies);
      SilentAnyLastSeq(p.tracked, files[turn.ex].content, Max(r.newSeq, p.maxSeq));
      if env.before.ok {
        assert StampHolds(Cycle(w, env), files, turn.ex, turn.at);
      }
    } else if w.pushedStat.ok {
      HeldStampHolds(w, turn, files, cursor);
    }
  }

  lemma {:induction false} RunKeepsHolding(w: Worker, turns: seq<Turn>, files: seq<FileVersion>)
    requires FreshStamps(files) && InOrder(turns, files) && !w.pushedStat.ok && MergesWrite(w, turns)
    ensures Holding(RunTurns(w, turns), files, Cursor(turns))
  {
    if turns != [] {
      var n := |turns| - 1;
      InOrderFront(turns, files);
      RunKeepsHolding(w, turns[..n], files);
      CycleKeepsHolding(RunTurns(w, turns[..n]), turns[n], files, Cursor(turns[..n]));
    }
  }

  /**
   If every merge writes the file, the fast path needs no proviso on the guard: a refusal stands as long as the
   file does, and whenever a cycle skips the push, the full push would have issued no request.
   */
  lemma SkipIsSilentIfMergesWrite(w: Worker, turns: seq<Turn>, turn: Turn, files: seq<FileVersion>)
    requires FreshStamps(files) && InOrder(turns, files) && !w.pushedStat.ok
    requires Sees(turn, files) && Cursor(turns) <= turn.at
    requires MergesWrite(w, turns + [turn])
    requires Skips(RunTurns(w, turns), turn.env)
    ensures Silent(Cycle(RunTurns(w, turns), turn.env).tracked, files[turn.at].content)
  {
    var u, env, x := RunTurns(w, turns), turn.env, files[turn.at].content;
    assert (turns + [turn])[..|turns|] == turns;
    RunKeepsHolding(w, turns, files);
    var i :| StampHolds(u, files, Cursor(turns), i);
    assert i == turn.at;
    if turns != [] {
      PullWithoutMerge(u, env, x);
    }
    var r := Pull(u.tracked, env.penv);
    SilentAnyLastSeq(r.tracked, x, 0);
    SilentAnyLastSeq(r.tracked, x, r.newSeq);
  }

  // ---------------------------------------------------------------- and when one does not

  // The file after six groups were lost, one of them deleted by the user. The deletion of that one arrives from
  // another device too; the file has it already, so the merge has nothing to write.
  const LOST := Export([], [], [Deletion(1, 0)], [])
  const SIX: seq<Uuid> := [1, 2, 3, 4, 5, 6]
  const FIVE: seq<Uuid> := [2, 3, 4, 5, 6]
  const TOMBSTONE_1 := Change(1, 0, true, EntryContent(None, 0, ""), Fine)

  function LostCycle(stamp: FileStamp, seqNo: int, changes: seq<Change>, replies: seq<Reply>): CycleEnv {
    CycleEnv(false, PullEnv(Some(Response(seqNo, changes)), [], true), stamp, PushEnv(Some(LOST), 0, replies), true)
  }

  lemma LostItems()
    ensures GroupUuids(LOST.groups) == {} && GroupItems(LOST.groups) == []
    ensures EntryItems(LOST.entries) + DeletionItems(LOST.deletions) == [DeletionItem(Deletion(1, 0))]
    ensures ToSet(LOST.trashed) == {}
  {
    assert ToSet<Uuid>([]) == {};
  }

  /** The first push sends the deletion; the guard refuses the other five. */
  lemma RefusedPush()
    ensures Push(Tracked(6, map[], SIX), LOST, 0, [Accepted(7)])
         == PushResult(Tracked(6, map[1 := At(0)], SIX), [DeletionItem(Deletion(1, 0))], 7, false)
  {
    LostItems();
    MissingNone(SIX, {});
    DeletionRun();
  }

  lemma DeletionRun()
    ensures Run(Start(map[], [Accepted(7)]), [DeletionItem(Deletion(1, 0))])
         == Progress(map[1 := At(0)], [DeletionItem(Deletion(1, 0))], 7, [], false)
  {
    var it := DeletionItem(Deletion(1, 0));
    var p := Start(map[], [Accepted(7)]);
    assert Run(p, [it]) == Step(Run(p, [it][..0]), it);
  }

  lemma RefusedCycle(w: Worker, stamp: FileStamp)
    requires w.tracked == Tracked(6, map[], SIX) && !w.pushedStat.ok
    ensures var t := Tracked(7, map[1 := At(0)], SIX);
            Cycle(w, LostCycle(stamp, 6, [], [Accepted(7)])) == Worker(t, t, stamp)
  {
    RefusedPush();
  }

  lemma TombstonePull()
    ensures Pull(Tracked(7, map[1 := At(0)], SIX), PullEnv(Some(Response(8, [TOMBSTONE_1])), [], true))
         == PullResult(Tracked(7, map[1 := At(0)], FIVE), 8, 0, 1, Staged([], [], [Deletion(1, 0)]), true)
  {
    TombstoneRead();
    assert DeletedUuids([Deletion(1, 0)]) == {1};
    PruneSix();
    assert MergedTree([], [], [Deletion(1, 0)]) == [];
  }

  lemma TombstoneRead()
    ensures ReadAll(Reading(map[1 := At(0)], NOTHING, true), [TOMBSTONE_1])
         == Reading(map[1 := At(0)], Staged([], [], [Deletion(1, 0)]), true)
  {
    var r0 := Reading(map[1 := At(0)], NOTHING, true);
    var one := [TOMBSTONE_1];
    assert one[..0] == [];
    assert ReadAll(r0, one) == ReadOne(ReadAll(r0, one[..0]), one[0]);
  }

  lemma FivePushFails(t: Tracked)
    requires t.known == FIVE
    ensures Push(t, LOST, 0, []) == PushResult(t, [], 0, true)
  {
    FiveAreDue();
    LostItems();
    DueTombstoneStarves(Start(t.states, []), GroupTombstones(FIVE, 0));
  }

  lemma TombstoneCycle(w: Worker, stamp: FileStamp)
    requires w.tracked == Tracked(7, map[1 := At(0)], SIX) && w.pushedStat == stamp
    ensures var t := Tracked(8, map[1 := At(0)], FIVE);
            Cycle(w, LostCycle(stamp, 8, [TOMBSTONE_1], [])) == Worker(t, t, stamp)
    ensures Merges(w, LostCycle(stamp, 8, [TOMBSTONE_1], []))
  {
    TombstonePull();
    FivePushFails(Tracked(8, map[1 := At(0)], FIVE));
  }

  lemma FiveAreDue()
    ensures Missing(FIVE, GroupUuids(LOST.groups)) == FIVE && !Refused(FIVE, LOST)
  {
    LostItems();
    MissingNone(FIVE, {});
  }

  function Refusing(stamp: FileStamp): Turn {
    Turn(LostCycle(stamp, 6, [], [Accepted(7)]), 0, 0)
  }

  function Unwritten(stamp: FileStamp): Turn {
    Turn(LostCycle(stamp, 8, [TOMBSTONE_1], []), 0, 0)
  }

  function Skipped(stamp: FileStamp): Turn {
    Turn(LostCycle(stamp, 8, [], []), 0, 0)
  }

  const FRESH: Worker := Worker(Tracked(6, map[], SIX), Tracked(6, map[], SIX), FileStamp(false, 0, 0))

  /** The states the witness goes through. */
  lemma WitnessRuns(stamp: FileStamp)
    requires stamp.ok
    ensures var t := Tracked(7, map[1 := At(0)], SIX); RunTurns(FRESH, [Refusing(stamp)]) == Worker(t, t, stamp)
    ensures var t := Tracked(8, map[1 := At(0)], FIVE);
            RunTurns(FRESH, [Refusing(stamp), Unwritten(stamp)]) == Worker(t, t, stamp)
    ensures Merges(RunTurns(FRESH, [Refusing(stamp)]), Unwritten(stamp).env)
  {
    var one, two := [Refusing(stamp)], [Refusing(stamp), Unwritten(stamp)];
    assert one[..0] == [] && two[..1] == one;
    RefusedCycle(FRESH, stamp);
    assert RunTurns(FRESH, one) == Cycle(RunTurns(FRESH, one[..0]), one[0].env);
    TombstoneCycle(RunTurns(FRESH, one), stamp);
    assert RunTurns(FRESH, two) == Cycle(RunTurns(FRESH, two[..1]), two[1].env);
  }

  lemma WitnessReads(stamp: FileStamp)
    requires stamp.ok
    ensures var files := [FileVersion(stamp, LOST)];
            && FreshStamps(files) && InOrder([Refusing(stamp), Unwritten(stamp)], files) && Sees(Skipped(stamp), files)
  {
    LostIsWhole();
  }

  /**
   A refused stamp skips a due push, and it takes a merge that writes nothing. Six known groups vanish; the guard
   refuses and the stamp is taken. The tombstone of one of them is pulled, which the file has already, so neither
   file nor stamp change; the push that would now be accepted fails on the network. From then on every cycle skips,
   although a full push would delete the other five groups.
   */
  lemma RefusedStampSkipsADuePush(stamp: FileStamp)
    requires stamp.ok
    ensures var files, turns := [FileVersion(stamp, LOST)], [Refusing(stamp), Unwritten(stamp)];
            var u := RunTurns(FRESH, turns);
            && FreshStamps(files) && InOrder(turns, files) && Sees(Skipped(stamp), files)
            && Merges(RunTurns(FRESH, [Refusing(stamp)]), Unwritten(stamp).env) && !MergesWrite(FRESH, turns)
            && Skips(u, Skipped(stamp).env) && !Silent(Cycle(u, Skipped(stamp).env).tracked, LOST)
  {
    var turns := [Refusing(stamp), Unwritten(stamp)];
    assert turns[..1] == [Refusing(stamp)];
    WitnessRuns(stamp);
    WitnessReads(stamp);
    FiveAreDue();
    assert Cycle(RunTurns(FRESH, turns), Skipped(stamp).env).tracked.known == FIVE;
  }

  lemma LostIsWhole()
    ensures WholeItems(Timestamped(LOST))
  {
    LostItems();
    assert Timestamped(LOST) == [DeletionItem(Deletion(1, 0))];
  }

  lemma {:induction false} DueTombstoneStarves(p: Progress, items: seq<Item>)
    requires items != [] && !p.failed && p.replies == []
    requires forall it | it in items :: it.kind.GroupTombstone?
    ensures Run(p, items) == p.(failed := true)
  {
    var n := |items| - 1;
    assert items[n] in items;
    if n > 0 {
      assert forall it | it in items[..n] :: it in items;
      DueTombstoneStarves(p, items[..n]);
    }
  }

  lemma PruneSix()
    ensures Missing([1, 2, 3, 4, 5, 6], {1}) == [2, 3, 4, 5, 6]
  {
    assert [1, 2, 3, 4, 5, 6] == [1] + [2, 3, 4, 5, 6];
    FirstForgotten(1, [2, 3, 4, 5, 6]);
  }
}
