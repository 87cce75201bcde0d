/**
 The one-shot commands (client/cmd/keepass-deltasync/sync.go, push.go, pull.go) and what whole runs of
 pulls and pushes on one tracking state guarantee: no version of an object is uploaded twice.
 */
module Commands {
  import opened Basics
  import opened Tracking
  import opened GroupTree
  import opened PushSide
  import opened PullSide

  datatype PushEnv = PushEnv(exported: Option<Export>, now: Time, replies: seq<Reply>)

  // One pull or push. `kept` tells whether the tracking state it produced survives: the commands drop it
  // when anything fails before the config is saved, the daemon goes on with it in memory.
  datatype Event = Pulled(penv: PullEnv, kept: bool) | Pushed(x: Export, now: Time, replies: seq<Reply>, kept: bool)

  function After(t: Tracked, e: Event): Tracked {
    if !e.kept then t
    else match e
      case Pulled(penv, _) =>
        var r := Pull(t, penv);
        if r.ok then r.tracked.(lastSeq := r.newSeq) else r.tracked
      case Pushed(x, now, replies, _) =>
        var r := Push(t, x, now, replies);
        r.tracked.(lastSeq := Max(t.lastSeq, r.maxSeq))
  }

  /** The config file: each command starts from it and replaces it only at the very end. */
  class ConfigFile {
    var stored: Tracked

    constructor (t: Tracked)
      ensures stored == t
    {
      stored := t;
    }

    method RunPull(penv: PullEnv, saveOk: bool) returns (ok: bool)
      modifies this
      ensures ok == (Pull(old(stored), penv).ok && saveOk)
      ensures stored == After(old(stored), Pulled(penv, ok))
    {
      var db := new Database(stored);
      var newSeq, merged, deleted, staged, pulled := PullChanges(db, penv);
      if !pulled {
        return false;
      }
      db.LastSeq := newSeq;
      if !saveOk {
        return false;
      }
      stored := db.View();
      return true;
    }

    method RunPush(env: PushEnv, saveOk: bool) returns (sent: seq<Item>, ok: bool)
      modifies this
      ensures env.exported.None? ==> !ok && sent == [] && stored == old(stored)
      ensures env.exported.Some? ==>
                var r := Push(old(stored), env.exported.value, env.now, env.replies);
                && sent == r.sent && ok == (!r.failed && saveOk)
                && stored == After(old(stored), Pushed(env.exported.value, env.now, env.replies, ok))
    {
      if env.exported.None? {
        return [], false;
      }
      var db := new Database(stored);
      var maxSeq, pushed;
      sent, maxSeq, pushed := PushChanges(db, env.exported.value, env.now, env.replies);
      if !pushed {
        return sent, false;
      }
      if maxSeq > db.LastSeq {
        db.LastSeq := maxSeq;
      }
      if !saveOk {
        return sent, false;
      }
      stored := db.View();
      return sent, true;
    }

    /** A whole sync is a pull then a push on its outcome, and all of it counts or none of it. */
    method RunSync(penv: PullEnv, env: PushEnv, saveOk: bool) returns (sent: seq<Item>, ok: bool)
      modifies this
      ensures var pulled := After(old(stored), Pulled(penv, true));
              if !Pull(old(stored), penv).ok || env.exported.None? then !ok && sent == [] && stored == old(stored)
              else
                var r := Push(pulled, env.exported.value, env.now, env.replies);
                && sent == r.sent && ok == (!r.failed && saveOk)
                && stored == if ok then After(pulled, Pushed(env.exported.value, env.now, env.replies, true))
                             else old(stored)
    {
      var db := new Database(stored);
      ghost var t0 := stored;
      var newSeq, merged, deleted, staged, okPull := PullChanges(db, penv);
      if !okPull {
        return [], false;
      }
      if env.exported.None? {
        return [], false;
      }
      ghost var mid := db.View();
      assert mid == Pull(t0, penv).tracked;
      var maxSeq, okPush;
      sent, maxSeq, okPush := PushChanges(db, env.exported.value, env.now, env.replies);
      LastSeqPassesThrough(mid, newSeq, env.exported.value, env.now, env.replies);
      if !okPush {
        return sent, false;
      }
      if maxSeq > newSeq {
        newSeq := maxSeq;
      }
      db.LastSeq := newSeq;
      if !saveOk {
        return sent, false;
      }
      stored := db.View();
      return sent, true;
    }
  }

  /** A push neither reads nor changes LastSeq; its callers do. */
  lemma LastSeqPassesThrough(t: Tracked, n: int, x: Export, now: Time, replies: seq<Reply>)
    ensures var a, b := Push(t, x, now, replies), Push(t.(lastSeq := n), x, now, replies);
            a.sent == b.sent && a.maxSeq == b.maxSeq && a.failed == b.failed
            && b.tracked == a.tracked.(lastSeq := n)
  {}

  // ---------------------------------------------------------------- uploads over a run

  predicate Versioned(it: Item) {
    !it.kind.GroupTombstone?
  }

  function Sent(t: Tracked, e: Event): seq<Item> {
    if e.Pushed? then Push(t, e.x, e.now, e.replies).sent else []
  }

  /** The tracking state and all uploads after a run, oldest upload first. */
  function RunEvents(t: Tracked, events: seq<Event>): (Tracked, seq<Item>) {
    if events == [] then (t, [])
    else
      var n := |events| - 1;
      var (u, sent) := RunEvents(t, events[..n]);
      (After(u, events[n]), sent + Sent(u, events[n]))
  }

  predicate UploadedBy(t: Tracked, e: Event, it: Item) {
    e.Pushed? && it in Push(t, e.x, e.now, e.replies).sent
  }

  predicate UploadedAt(t: Tracked, events: seq<Event>, i: nat, it: Item) {
    i < |events| && UploadedBy(RunEvents(t, events[..i]).0, events[i], it)
  }

  lemma RunEventsAppend(t: Tracked, events: seq<Event>, e: Event)
    ensures var u := RunEvents(t, events).0;
            RunEvents(t, events + [e]) == (After(u, e), RunEvents(t, events).1 + Sent(u, e))
  {
    assert (events + [e])[..|events|] == events;
  }

  /** The uploads of a run are those of its pushes, each made from the state the run had reached. */
  lemma {:induction false} UploadsOfARun(t: Tracked, events: seq<Event>, it: Item)
    ensures it in RunEvents(t, events).1 <==> exists i: nat :: UploadedAt(t, events, i, it)
  {
    if events != [] {
      var n := |events| - 1;
      var front, e := events[..n], events[n];
      assert events == front + [e];
      UploadsOfARun(t, front, it);
      RunEventsAppend(t, front, e);
      UploadedInFront(t, front, e, it);
    }
  }

  lemma UploadedInFront(t: Tracked, front: seq<Event>, e: Event, it: Item)
    ensures (exists i: nat :: UploadedAt(t, front + [e], i, it))
       <==> (exists i: nat :: UploadedAt(t, front, i, it)) || UploadedBy(RunEvents(t, front).0, e, it)
  {
    var events := front + [e];
    assert events[..|front|] == front;
    assert UploadedAt(t, events, |front|, it) <==> UploadedBy(RunEvents(t, front).0, e, it);
    forall i: nat | i < |front| ensures UploadedAt(t, front, i, it) <==> UploadedAt(t, events, i, it) {
      assert events[..i] == front[..i];
    }
  }

  /** Every versioned upload so far is remembered as of its trigger. */
  ghost predicate Remembers(states: States, sent: seq<Item>) {
    forall it | it in sent && Versioned(it) :: AtLeast(states, it.uuid, it.trigger)
  }

  /** Per UUID, later uploads carry strictly later triggers. */
  ghost predicate StrictlyLater(sent: seq<Item>) {
    forall i, j :: 0 <= i < j < |sent| && Versioned(sent[i]) && Versioned(sent[j]) && sent[i].uuid == sent[j].uuid
      ==> sent[i].trigger < sent[j].trigger
  }

  ghost predicate WholeEvent(e: Event) {
    e.Pushed? ==> WholeItems(Timestamped(e.x))
  }

  lemma {:induction false} RunUploadsLater(p: Progress, items: seq<Item>)
    requires WholeItems(items) || forall it | it in items :: !Versioned(it)
    requires Remembers(p.states, p.sent) && StrictlyLater(p.sent)
    ensures var q := Run(p, items); Remembers(q.states, q.sent) && StrictlyLater(q.sent)
  {
    if items != [] {
      var n := |items| - 1;
      assert items == items[..n] + [items[n]];
      assert items[n] in items;
      assert forall it | it in items[..n] :: it in items;
      RunUploadsLater(p, items[..n]);
      StepUploadsLater(Run(p, items[..n]), items[n]);
    }
  }

  lemma StepUploadsLater(p: Progress, it: Item)
    requires Whole(it.trigger) || !Versioned(it)
    requires Remembers(p.states, p.sent) && StrictlyLater(p.sent)
    ensures var q := Step(p, it); Remembers(q.states, q.sent) && StrictlyLater(q.sent)
  {
    var q := Step(p, it);
    FloorIsLastSecond(it.trigger, it.trigger);
    if q.sent == p.sent + [it] {
      forall o | o in q.sent && Versioned(o) ensures AtLeast(q.states, o.uuid, o.trigger) {
        assert o in p.sent || o == it;
      }
      forall i, j | 0 <= i < j < |q.sent| && Versioned(q.sent[i]) && Versioned(q.sent[j])
                    && q.sent[i].uuid == q.sent[j].uuid
        ensures q.sent[i].trigger < q.sent[j].trigger
      {
        if j == |p.sent| {
          assert q.sent[i] in p.sent;
        }
      }
    }
  }

  lemma {:induction false} RunAppends(p: Progress, items: seq<Item>, before: seq<Item>)
    ensures Run(p.(sent := before + p.sent), items) == Run(p, items).(sent := before + Run(p, items).sent)
  {
    if items != [] {
      var n := |items| - 1;
      RunAppends(p, items[..n], before);
      var q := Run(p, items[..n]);
      assert before + (q.sent + [items[n]]) == before + q.sent + [items[n]];
    }
  }

  /** One push, whether it fails or not, extends a remembered history to a remembered history. */
  lemma PushUploadsLater(t: Tracked, x: Export, now: Time, replies: seq<Reply>, before: seq<Item>)
    requires WholeItems(Timestamped(x))
    requires Remembers(t.states, before) && StrictlyLater(before)
    ensures var r := Push(t, x, now, replies);
            && Remembers(r.tracked.states, before + r.sent) && StrictlyLater(before + r.sent)
            && NotBelow(t.states, r.tracked.states)
  {
    var p0 := Progress(t.states, before, 0, replies, false);
    var gi, ei := GroupItems(x.groups), EntryItems(x.entries) + DeletionItems(x.deletions);
    var ti := GroupTombstones(Missing(t.known, GroupUuids(x.groups)), now);
    assert WholeItems(gi) by { assert forall it | it in gi :: it in Timestamped(x); }
    assert WholeItems(ei) by { assert forall it | it in ei :: it in Timestamped(x); }
    assert p0 == Start(t.states, replies).(sent := before + []) by { assert before + [] == before; }
    RunAppends(Start(t.states, replies), gi, before);
    RunUploadsLater(p0, gi);
    RunRaises(p0, gi);
    var p1, q1 := Run(p0, gi), Run(Start(t.states, replies), gi);
    RunAppends(q1, ti, before);
    RunUploadsLater(p1, ti);
    TombstonesKeepStates(p1, ti);
    var p2 := if Refused(t.known, x) then p1 else Run(p1, ti);
    var q2 := if Refused(t.known, x) then q1 else Run(q1, ti);
    RunAppends(q2, ei, before);
    RunUploadsLater(p2, ei);
    RunRaises(p2, ei);
  }

  /**
   No version is uploaded twice. Over any run of pulls and pushes whose outcomes are kept — including ones
   that fail part-way — recorded times never move back, and the triggers of the entry, group and
   entry-tombstone uploads of one UUID strictly increase, although the server only ever reports back the
   modification time.
   */
  lemma {:induction false} NoVersionUploadedTwice(t: Tracked, events: seq<Event>)
    requires forall e | e in events :: e.kept && WholeEvent(e)
    ensures var (u, sent) := RunEvents(t, events);
            NotBelow(t.states, u.states) && Remembers(u.states, sent) && StrictlyLater(sent)
  {
    if events != [] {
      var n := |events| - 1;
      assert events == events[..n] + [events[n]];
      assert events[n] in events;
      NoVersionUploadedTwice(t, events[..n]);
      var (u, sent) := RunEvents(t, events[..n]);
      match events[n] {
        case Pulled(penv, _) =>
          PullTracks(u, penv);
          assert sent + [] == sent;
        case Pushed(x, now, replies, _) =>
          PushUploadsLater(u, x, now, replies, sent);
      }
    }
  }

  predicate Answered(replies: seq<Reply>, n: int) {
    |replies| >= n && forall r | r in replies :: r.Accepted?
  }

  /** From the same states, a run on a network that always answers uploads at least what any run uploads. */
  lemma {:induction false} AnsweredRunSendsMore(p: Progress, full: Progress, items: seq<Item>)
    requires full.states == p.states && !full.failed && Answered(full.replies, |items|)
    ensures var q, f := Run(p, items), Run(full, items);
            && !f.failed && Answered(f.replies, |full.replies| - |items|)
            && full.sent <= f.sent
            && (!q.failed ==> f.states == q.states)
            && (forall it | it in q.sent :: it in p.sent || it in f.sent)
  {
    if items != [] {
      var n := |items| - 1;
      AnsweredRunSendsMore(p, full, items[..n]);
      var f := Run(full, items[..n]);
      assert f.replies[0] in f.replies;
      assert forall r | r in f.replies[1..] :: r in f.replies;
    }
  }

  /**
   The proviso is needed, and exact. When a push uploaded something and is then repeated on the same export
   with a network that answers, an already uploaded version goes out again if and only if the state of the
   first push was dropped — which the commands do whenever the push fails part-way or the save fails.
   */
  lemma RepeatedIffDropped(t: Tracked, x: Export, now: Time, replies: seq<Reply>, kept: bool,
                           now': Time, replies': seq<Reply>, first: Item)
    requires WholeItems(Timestamped(x))
    requires Answered(replies', |Timestamped(x)| + |t.known|)
    requires first in Push(t, x, now, replies).sent && Versioned(first)
    ensures var again := Push(After(t, Pushed(x, now, replies, kept)), x, now', replies').sent;
            first in again <==> !kept
  {
    if kept {
      KeptIsNotRepeated(t, x, now, replies, now', replies', first);
    } else {
      DroppedIsRepeated(t, x, now, replies, now', replies', first);
    }
  }

  lemma KeptIsNotRepeated(t: Tracked, x: Export, now: Time, replies: seq<Reply>,
                          now': Time, replies': seq<Reply>, first: Item)
    requires WholeItems(Timestamped(x))
    requires first in Push(t, x, now, replies).sent && Versioned(first)
    ensures first !in Push(After(t, Pushed(x, now, replies, true)), x, now', replies').sent
  {
    var r := Push(t, x, now, replies);
    var later := After(t, Pushed(x, now, replies, true));
    PushUploadsLater(t, x, now, replies, []);
    assert [] + r.sent == r.sent;
    PushUploadsLater(later, x, now', replies', r.sent);
    NotAgain(r.sent, Push(later, x, now', replies').sent, first);
  }

  lemma NotAgain(before: seq<Item>, again: seq<Item>, it: Item)
    requires StrictlyLater(before + again) && it in before && Versioned(it)
    ensures it !in again
  {
    var both := before + again;
    var i :| 0 <= i < |before| && before[i] == it;
    forall j | 0 <= j < |again| ensures again[j] != it {
      assert both[i] == it && both[|before| + j] == again[j];
    }
  }

  lemma DroppedIsRepeated(t: Tracked, x: Export, now: Time, replies: seq<Reply>,
                          now': Time, replies': seq<Reply>, first: Item)
    requires Answered(replies', |Timestamped(x)| + |t.known|)
    requires first in Push(t, x, now, replies).sent && Versioned(first)
    ensures first in Push(t, x, now', replies').sent
  {
    var gi, ei := GroupItems(x.groups), EntryItems(x.entries) + DeletionItems(x.deletions);
    var doomed := Missing(t.known, GroupUuids(x.groups));
    var ti, ti' := GroupTombstones(doomed, now), GroupTombstones(doomed, now');
    OwnKinds(x, now, doomed);
    OwnKinds(x, now', doomed);
    PartsSendMore(Start(t.states, replies), Start(t.states, replies'), gi, ti, ti', ei, Refused(t.known, x));
  }

  /** The parts of a push, one after the other until one fails. */
  function Parts(p: Progress, gi: seq<Item>, ti: seq<Item>, ei: seq<Item>, refused: bool): Progress {
    var p1 := Run(p, gi);
    if p1.failed then p1 else
    var p2 := if refused then p1 else Run(p1, ti);
    if p2.failed then p2 else Run(p2, ei)
  }

  lemma PartsSendMore(p: Progress, full: Progress, gi: seq<Item>, ti: seq<Item>, ti': seq<Item>, ei: seq<Item>, refused: bool)
    requires full.states == p.states && p.sent == full.sent == [] && !full.failed && |ti| == |ti'|
    requires Answered(full.replies, |gi| + |ti'| + |ei|)
    requires (forall it | it in ti :: it.kind.GroupTombstone?) && forall it | it in ti' :: it.kind.GroupTombstone?
    ensures forall it | it in Parts(p, gi, ti, ei, refused).sent && Versioned(it) :: it in Parts(full, gi, ti', ei, refused).sent
  {
    AnsweredRunSendsMore(p, full, gi);
    var q, q' := Run(p, gi), Run(full, gi);
    AnsweredRunSendsMore(q', q', ti');
    TombstonesKeepStates(q', ti');
    var f := if refused then q' else Run(q', ti');
    AnsweredRunSendsMore(f, f, ei);
    if !q.failed {
      TombstonesKeepStates(q, ti);
      TombstonesAddOnly(q, ti);
      var g := if refused then q else Run(q, ti);
      if !g.failed {
        AnsweredRunSendsMore(g, f, ei);
      }
    }
  }

  lemma {:induction false} TombstonesAddOnly(p: Progress, items: seq<Item>)
    requires forall it | it in items :: it.kind.GroupTombstone?
    ensures forall it | it in Run(p, items).sent :: it in p.sent || it.kind.GroupTombstone?
  {
    if items != [] {
      var n := |items| - 1;
      assert items[n] in items;
      TombstonesAddOnly(p, items[..n]);
    }
  }

  // ---------------------------------------------------------------- the group guard over a run

  /** Over any run of pulls and pushes, kept or dropped, failed or not, known groups stay sorted and free of duplicates. */
  lemma {:induction false} KnownGroupsStaySortedOverRuns(t: Tracked, events: seq<Event>)
    requires StrictlyIncreasing(t.known)
    ensures StrictlyIncreasing(RunEvents(t, events).0.known)
  {
    if events != [] {
      var n := |events| - 1;
      KnownGroupsStaySortedOverRuns(t, events[..n]);
      var u := RunEvents(t, events[..n]).0;
      match events[n] {
        case Pulled(penv, _) => PullTracks(u, penv);
        case Pushed(x, now, replies, _) => KnownGroupsStaySorted(u, x, now, replies);
      }
    }
  }

  /** Every push of the run whose outcome is kept is refused by the guard. */
  ghost predicate OnlyRefusals(t: Tracked, events: seq<Event>) {
    events == []
    || var n := |events| - 1;
       OnlyRefusals(t, events[..n])
       && (events[n].Pushed? && events[n].kept ==> Refused(RunEvents(t, events[..n]).0.known, events[n].x))
  }

  lemma {:induction false} RefusalsForgetOnlyTombstoned(t: Tracked, events: seq<Event>)
    requires OnlyRefusals(t, events)
    ensures forall u | u in RunEvents(t, events).0.known :: u in t.known
  {
    if events != [] {
      var n := |events| - 1;
      RefusalsForgetOnlyTombstoned(t, events[..n]);
      if events[n].Pulled? {
        PullTracks(RunEvents(t, events[..n]).0, events[n].penv);
      }
    }
  }

  /** A push that misses no known group sends no group tombstone, whether it goes through or not. */
  lemma NothingMissingNothingDoomed(t: Tracked, x: Export, now: Time, replies: seq<Reply>)
    requires forall u | u in t.known :: u in GroupUuids(x.groups)
    ensures TombstonesIn(Push(t, x, now, replies).sent) == []
  {
    MissingAll(t.known, GroupUuids(x.groups));
    var p, gi := Start(t.states, replies), GroupItems(x.groups);
    var ei := EntryItems(x.entries) + DeletionItems(x.deletions);
    OwnKinds(x, now, []);
    RunSendsOwnKind(p, gi);
    RunSendsOwnKind(Run(p, gi), ei);
    assert GroupTombstones([], now) == [];
    assert Run(Run(p, gi), []) == Run(p, gi);
  }

  /**
   A refusal deletes nothing for good: after it, through any pulls and further refused pushes, an export that has
   all the groups known then deletes none.
   */
  lemma RefusalIsForgottenOverRuns(t: Tracked, x: Export, now: Time, replies: seq<Reply>, events: seq<Event>,
                                   y: Export, now': Time, replies': seq<Reply>)
    requires Refused(t.known, x)
    requires forall u | u in t.known :: u in GroupUuids(y.groups)
    requires OnlyRefusals(Push(t, x, now, replies).tracked, events)
    ensures var later := RunEvents(Push(t, x, now, replies).tracked, events).0;
            TombstonesIn(Push(later, y, now', replies').sent) == []
  {
    var u := Push(t, x, now, replies).tracked;
    assert u.known == t.known;
    RefusalsForgetOnlyTombstoned(u, events);
    NothingMissingNothingDoomed(RunEvents(u, events).0, y, now', replies');
  }

  /**
   But it may end without the groups coming back. Six known groups vanish and the guard refuses; when another device
   then deletes one of them, the pull forgets it, and the next push deletes the other five.
   */
  lemma RefusalYieldsToAPull(t: Tracked, x: Export, now: Time, replies: seq<Reply>, g: Uuid, rest: seq<Uuid>, died: Time,
                             y: Export, now': Time, replies': seq<Reply>)
    requires t.known == [g] + rest && |rest| == 5 && g !in rest
    requires x.groups == y.groups == [] && x.trashed == y.trashed == []
    ensures var penv := PullEnv(Some(Response(1, [Change(g, died, true, EntryContent(None, 0, ""), Fine)])), [], true);
            var later := After(Push(t, x, now, replies).tracked, Pulled(penv, true));
            && Refused(t.known, x) && later.known == rest
            && (!Push(later, y, now', replies').failed ==>
                  TombstonesIn(Push(later, y, now', replies').sent) == GroupTombstones(rest, now'))
  {
    var penv := PullEnv(Some(Response(1, [Change(g, died, true, EntryContent(None, 0, ""), Fine)])), [], true);
    assert GroupUuids([]) == {} && ToSet<Uuid>([]) == {};
    MissingNone(t.known, {});
    var u := Push(t, x, now, replies).tracked;
    assert u.known == t.known;
    OneTombstonePulled(u, penv, g, rest, died);
    var later := After(u, Pulled(penv, true));
    MissingNone(later.known, {});
    if !Push(later, y, now', replies').failed {
      GuardOnPush(later, y, now', replies');
    }
  }

  lemma OneTombstonePulled(u: Tracked, penv: PullEnv, g: Uuid, rest: seq<Uuid>, died: Time)
    requires u.known == [g] + rest && g !in rest
    requires penv == PullEnv(Some(Response(1, [Change(g, died, true, EntryContent(None, 0, ""), Fine)])), [], true)
    ensures After(u, Pulled(penv, true)).known == rest
  {
    var c := Change(g, died, true, EntryContent(None, 0, ""), Fine);
    var r := Reading(u.states, NOTHING, true);
    assert [c][..0] == [];
    assert ReadAll(r, [c]) == ReadOne(r, c);
    assert ReadAll(r, [c]).staged.deletions == [Deletion(g, died)];
    assert DeletedUuids([Deletion(g, died)]) == {g} by {
      assert [Deletion(g, died)][0] in [Deletion(g, died)];
    }
    FirstForgotten(g, rest);
  }

  lemma {:induction false} FirstForgotten(g: Uuid, rest: seq<Uuid>)
    requires g !in rest
    ensures Missing([g] + rest, {g}) == rest
  {
    if rest == [] {
      assert [g] + rest == [] + [g];
      MissingAppend([], g, {g});
    } else {
      var n := |rest| - 1;
      assert [g] + rest == ([g] + rest[..n]) + [rest[n]];
      FirstForgotten(g, rest[..n]);
      MissingAppend([g] + rest[..n], rest[n], {g});
    }
  }
}
