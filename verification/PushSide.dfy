/**
 The push half of a sync (client/cmd/keepass-deltasync/syncop.go, `pushChanges`): export, compare
 every object with the tracking map, upload what is newer, and tombstone groups that disappeared.
 */
module PushSide {
  import opened Basics
  import opened Tracking
  import opened GroupTree

  datatype Entry = Entry(uuid: Uuid, modifiedAt: Time, locationChanged: Time, parent: Option<Uuid>, fragment: string)

  // What the parsed keepassxc-cli export offers to a push.
  datatype Export = Export(entries: seq<Entry>, groups: seq<Group>, deletions: seq<Deletion>, trashed: seq<Uuid>)

  datatype Kind = GroupPut | GroupTombstone | EntryPut | EntryTombstone

  // What is encrypted: a group without its search flag, or an entry's fragment, its move time, and its group.
  datatype Payload = GroupBlob(group: Group) | EntryBlob(parent: Option<Uuid>, moved: Time, fragment: string) | NoBlob

  // One candidate request: what would go on the wire, and the time that decides whether it does.
  datatype Item = Item(kind: Kind, uuid: Uuid, modifiedAt: Recorded, trigger: Time, payload: Payload)

  // The environment's answer to one attempt: the server's sequence number, or a failed encoding or call.
  datatype Reply = Accepted(seqNo: int) | Failed

  // `replies` are the answers still to come; running out of them is the sync's deadline.
  datatype Progress = Progress(states: States, sent: seq<Item>, maxSeq: int, replies: seq<Reply>, failed: bool)

  datatype PushResult = PushResult(tracked: Tracked, sent: seq<Item>, maxSeq: int, failed: bool)

  function GroupItem(g: Group): Item {
    Item(GroupPut, g.uuid, Format(g.modifiedAt), LaterTime(g.modifiedAt, g.locationChanged),
         GroupBlob(g.(searching := None)))
  }

  function EntryItem(e: Entry): Item {
    Item(EntryPut, e.uuid, Format(e.modifiedAt), LaterTime(e.modifiedAt, e.locationChanged),
         EntryBlob(e.parent, e.locationChanged, e.fragment))
  }

  function DeletionItem(d: Deletion): Item {
    Item(EntryTombstone, d.uuid, Format(d.deletedAt), d.deletedAt, NoBlob)
  }

  function GroupItems(groups: seq<Group>): (r: seq<Item>)
    ensures |r| == |groups|
  {
    seq(|groups|, i requires 0 <= i < |groups| => GroupItem(groups[i]))
  }

  function EntryItems(entries: seq<Entry>): (r: seq<Item>)
    ensures |r| == |entries|
  {
    seq(|entries|, i requires 0 <= i < |entries| => EntryItem(entries[i]))
  }

  function DeletionItems(deletions: seq<Deletion>): (r: seq<Item>)
    ensures |r| == |deletions|
  {
    seq(|deletions|, i requires 0 <= i < |deletions| => DeletionItem(deletions[i]))
  }

  function GroupTombstones(doomed: seq<Uuid>, now: Time): (r: seq<Item>)
    ensures |r| == |doomed|
  {
    seq(|doomed|, i requires 0 <= i < |doomed| => Item(GroupTombstone, doomed[i], Format(now), now, NoBlob))
  }

  /** The objects of an export that carry their own time, in push order. */
  function Timestamped(x: Export): seq<Item> {
    GroupItems(x.groups) + (EntryItems(x.entries) + DeletionItems(x.deletions))
  }

  /** One object: skip it, fail on it, or upload it and record the trigger (group tombstones record nothing). */
  function Step(p: Progress, it: Item): Progress {
    if p.failed then p
    else if !it.kind.GroupTombstone? && !ShouldPush(p.states, it.uuid, it.trigger) then p
    else if p.replies == [] || p.replies[0].Failed? then p.(failed := true)
    else Progress(
      if it.kind.GroupTombstone? then p.states else Record(p.states, it.uuid, Format(it.trigger)),
      p.sent + [it], Max(p.maxSeq, p.replies[0].seqNo), p.replies[1..], false)
  }

  function Run(p: Progress, items: seq<Item>): Progress {
    if items == [] then p
    else var n := |items| - 1; Step(Run(p, items[..n]), items[n])
  }

  function Start(states: States, replies: seq<Reply>): Progress {
    Progress(states, [], 0, replies, false)
  }

  // ---------------------------------------------------------------- what a request carries

  /** A request for a group of the export: its own fields, its modification time to the second, no search flag. */
  predicate PutsGroup(it: Item, g: Group) {
    && it.kind == GroupPut && it.uuid == g.uuid && ToTheSecond(it.modifiedAt, g.modifiedAt)
    && it.payload.GroupBlob? && it.payload.group.searching == None && it.payload.group.(searching := g.searching) == g
  }

  /** A request for an entry: its modification time, not the one that made it due, and the group it is in. */
  predicate PutsEntry(it: Item, e: Entry) {
    && it.kind == EntryPut && it.uuid == e.uuid && ToTheSecond(it.modifiedAt, e.modifiedAt)
    && it.payload == EntryBlob(e.parent, e.locationChanged, e.fragment)
  }

  predicate PutsDeletion(it: Item, d: Deletion) {
    it.kind == EntryTombstone && it.uuid == d.uuid && ToTheSecond(it.modifiedAt, d.deletedAt) && it.payload == NoBlob
  }

  ghost predicate IsFrom(x: Export, it: Item) {
    match it.kind
    case GroupPut => exists g :: g in x.groups && PutsGroup(it, g)
    case EntryPut => exists e :: e in x.entries && PutsEntry(it, e)
    case EntryTombstone => exists d :: d in x.deletions && PutsDeletion(it, d)
    case GroupTombstone => false
  }

  /** A known group the export lacks, as of the push. */
  predicate Tombstones(known: seq<Uuid>, x: Export, now: Time, it: Item) {
    && it.kind == GroupTombstone && it.uuid in known && it.uuid !in GroupUuids(x.groups)
    && ToTheSecond(it.modifiedAt, now) && it.payload == NoBlob
  }

  lemma {:induction false} RunSendsOffered(p: Progress, items: seq<Item>)
    ensures forall it | it in Run(p, items).sent :: it in p.sent || it in items
  {
    if items != [] {
      var n := |items| - 1;
      assert items == items[..n] + [items[n]];
      RunSendsOffered(p, items[..n]);
    }
  }

  lemma TimestampedAreFrom(x: Export, it: Item)
    requires it in Timestamped(x)
    ensures IsFrom(x, it)
  {
    var k :| 0 <= k < |Timestamped(x)| && Timestamped(x)[k] == it;
    var n, m := |x.groups|, |x.entries|;
    if k < n {
      FormatKeepsTheSecond(x.groups[k].modifiedAt);
      assert x.groups[k] in x.groups && PutsGroup(it, x.groups[k]);
    } else if k < n + m {
      FormatKeepsTheSecond(x.entries[k - n].modifiedAt);
      assert x.entries[k - n] in x.entries && PutsEntry(it, x.entries[k - n]);
    } else {
      FormatKeepsTheSecond(x.deletions[k - n - m].deletedAt);
      assert x.deletions[k - n - m] in x.deletions && PutsDeletion(it, x.deletions[k - n - m]);
    }
  }

  lemma TombstonesAre(known: seq<Uuid>, x: Export, now: Time, it: Item)
    requires it in GroupTombstones(Missing(known, GroupUuids(x.groups)), now)
    ensures Tombstones(known, x, now, it)
  {
    var gone := Missing(known, GroupUuids(x.groups));
    var ti := GroupTombstones(gone, now);
    var k :| 0 <= k < |ti| && ti[k] == it;
    assert gone[k] in gone;
    FormatKeepsTheSecond(now);
  }

  lemma SentFromParts(p: Progress, gi: seq<Item>, ti: seq<Item>, ei: seq<Item>)
    requires p.sent == []
    ensures forall it | it in Run(p, gi).sent :: it in gi
    ensures forall it | it in Run(Run(p, gi), ei).sent :: it in gi + ei
    ensures forall it | it in Run(Run(p, gi), ti).sent :: it in gi || it in ti
    ensures forall it | it in Run(Run(Run(p, gi), ti), ei).sent :: it in gi + ei || it in ti
  {
    RunSendsOffered(p, gi);
    RunSendsOffered(Run(p, gi), ti);
    RunSendsOffered(Run(p, gi), ei);
    RunSendsOffered(Run(Run(p, gi), ti), ei);
  }

  /**
   Every request of a push, whether it goes through or not, carries an object of the export as it is, with its
   modification time to the second; the others are tombstones for known groups that the export lacks.
   */
  lemma RequestsCarryTheExport(t: Tracked, x: Export, now: Time, replies: seq<Reply>, it: Item)
    requires it in Push(t, x, now, replies).sent
    ensures IsFrom(x, it) || Tombstones(t.known, x, now, it)
  {
    var ti := GroupTombstones(Missing(t.known, GroupUuids(x.groups)), now);
    SentFromParts(Start(t.states, replies), GroupItems(x.groups), ti, EntryItems(x.entries) + DeletionItems(x.deletions));
    if it in Timestamped(x) {
      TimestampedAreFrom(x, it);
    } else {
      TombstonesAre(t.known, x, now, it);
    }
  }

  predicate Refused(known: seq<Uuid>, x: Export) {
    RefuseGroupDeletion(|Missing(Missing(known, GroupUuids(x.groups)), ToSet(x.trashed))|, |known|)
  }

  function Push(t: Tracked, x: Export, now: Time, replies: seq<Reply>): PushResult {
    var current := GroupUuids(x.groups);
    var p1 := Run(Start(t.states, replies), GroupItems(x.groups));
    if p1.failed then PushResult(t.(states := p1.states), p1.sent, p1.maxSeq, true) else
    var p2 := if Refused(t.known, x) then p1 else Run(p1, GroupTombstones(Missing(t.known, current), now));
    if p2.failed then PushResult(t.(states := p2.states), p2.sent, p2.maxSeq, true) else
    var known := if Refused(t.known, x) then t.known else SortedSeq(current);
    var p3 := Run(p2, EntryItems(x.entries) + DeletionItems(x.deletions));
    PushResult(t.(states := p3.states, known := known), p3.sent, p3.maxSeq, p3.failed)
  }

  // ---------------------------------------------------------------- the imperative push

  lemma RunExtends(p: Progress, items: seq<Item>, i: nat)
    requires i < |items|
    ensures Run(p, items[..i + 1]) == Step(Run(p, items[..i]), items[i])
  {
    assert items[..i + 1][..i] == items[..i];
  }

  lemma {:induction false} RunStaysFailed(p: Progress, items: seq<Item>, i: nat)
    requires i <= |items| && Run(p, items[..i]).failed
    ensures Run(p, items) == Run(p, items[..i])
    decreases |items| - i
  {
    if i < |items| {
      RunExtends(p, items, i);
      RunStaysFailed(p, items, i + 1);
    } else {
      assert items[..i] == items;
    }
  }

  /** Sends one request if it is due; `ok` is false when the attempt failed and the push must stop. */
  method PushOne(db: Database, it: Item, sent: seq<Item>, maxSeq: int, replies: seq<Reply>)
    returns (sent': seq<Item>, maxSeq': int, replies': seq<Reply>, ok: bool)
    modifies db`EntryStates
    ensures Progress(db.EntryStates, sent', maxSeq', replies', !ok)
         == Step(Progress(old(db.EntryStates), sent, maxSeq, replies, false), it)
  {
    sent', maxSeq', replies', ok := sent, maxSeq, replies, true;
    if !it.kind.GroupTombstone? && !ShouldPush(db.EntryStates, it.uuid, it.trigger) {
      return;
    }
    if replies == [] || replies[0].Failed? {
      ok := false;
      return;
    }
    if replies[0].seqNo > maxSeq {
      maxSeq' := replies[0].seqNo;
    }
    if !it.kind.GroupTombstone? {
      db.RecordEntryState(it.uuid, Format(it.trigger));
    }
    sent' := sent + [it];
    replies' := replies[1..];
  }

  /** One of the four upload loops. */
  method PushAll(db: Database, items: seq<Item>, sent: seq<Item>, maxSeq: int, replies: seq<Reply>)
    returns (sent': seq<Item>, maxSeq': int, replies': seq<Reply>, ok: bool)
    modifies db`EntryStates
    ensures Progress(db.EntryStates, sent', maxSeq', replies', !ok)
         == Run(Progress(old(db.EntryStates), sent, maxSeq, replies, false), items)
  {
    sent', maxSeq', replies', ok := sent, maxSeq, replies, true;
    ghost var p := Progress(db.EntryStates, sent, maxSeq, replies, false);
    var i := 0;
    while i < |items|
      invariant 0 <= i <= |items|
      invariant ok
      invariant Progress(db.EntryStates, sent', maxSeq', replies', false) == Run(p, items[..i])
    {
      RunExtends(p, items, i);
      sent', maxSeq', replies', ok := PushOne(db, items[i], sent', maxSeq', replies');
      i := i + 1;
      if !ok {
        RunStaysFailed(p, items, i);
        return;
      }
    }
    assert items[..i] == items;
  }

  method PushChanges(db: Database, x: Export, now: Time, replies: seq<Reply>)
    returns (sent: seq<Item>, maxSeq: int, ok: bool)
    modifies db`EntryStates, db`KnownGroups
    ensures PushResult(db.View(), sent, maxSeq, !ok) == Push(old(db.View()), x, now, replies)
  {
    var rest: seq<Reply>;
    sent, maxSeq, rest, ok := PushAll(db, GroupItems(x.groups), [], 0, replies);
    if !ok {
      return;
    }
    var current := GroupUuids(x.groups);
    var doomed, unexplained := DoomedGroups(db.KnownGroups, current, x.trashed);
    if !RefuseGroupDeletion(unexplained, |db.KnownGroups|) {
      sent, maxSeq, rest, ok := PushAll(db, GroupTombstones(doomed, now), sent, maxSeq, rest);
      if !ok {
        return;
      }
      db.KnownGroups := SortedSeq(current);
    }
    ghost var p2 := Progress(db.EntryStates, sent, maxSeq, rest, false);
    sent, maxSeq, rest, ok := PushAll(db, EntryItems(x.entries), sent, maxSeq, rest);
    RunSplit(p2, EntryItems(x.entries), DeletionItems(x.deletions));
    if !ok {
      assert (EntryItems(x.entries) + DeletionItems(x.deletions))[..|x.entries|] == EntryItems(x.entries);
      RunStaysFailed(p2, EntryItems(x.entries) + DeletionItems(x.deletions), |x.entries|);
      return;
    }
    sent, maxSeq, rest, ok := PushAll(db, DeletionItems(x.deletions), sent, maxSeq, rest);
  }

  lemma {:induction false} RunSplit(p: Progress, a: seq<Item>, b: seq<Item>)
    ensures Run(p, a + b) == Run(Run(p, a), b)
    decreases |b|
  {
    if b == [] {
      assert a + b == a;
    } else {
      var n := |b| - 1;
      RunSplit(p, a, b[..n]);
      assert (a + b)[..|a + b| - 1] == a + b[..n];
    }
  }

  // ---------------------------------------------------------------- what a run does to the tracking map

  predicate WholeItems(items: seq<Item>) {
    forall it | it in items :: Whole(it.trigger)
  }

  /** `u` was offered, on its own time, at a second no earlier than `t`. */
  ghost predicate OfferedBy(items: seq<Item>, u: Uuid, t: Time) {
    exists it :: it in items && !it.kind.GroupTombstone? && it.uuid == u && Floor(it.trigger) >= t
  }

  lemma StatesAfterStep(p: Progress, it: Item, u: Uuid, t: Time)
    requires WholeStates(p.states) || Whole(it.trigger)
    requires !Step(p, it).failed
    ensures AtLeast(Step(p, it).states, u, t)
       <==> AtLeast(p.states, u, t) || (!it.kind.GroupTombstone? && it.uuid == u && Floor(it.trigger) >= t)
    ensures WholeStates(p.states) ==> WholeStates(Step(p, it).states)
  {
    FloorIsLastSecond(it.trigger, it.trigger);
    if it.uuid in p.states && p.states[it.uuid].At? {
      FloorIsLastSecond(it.trigger, p.states[it.uuid].t);
    }
  }

  lemma OfferedByAppend(items: seq<Item>, it: Item, u: Uuid, t: Time)
    ensures OfferedBy(items + [it], u, t)
       <==> OfferedBy(items, u, t) || (!it.kind.GroupTombstone? && it.uuid == u && Floor(it.trigger) >= t)
  {
    assert it in items + [it];
    assert forall other | other in items :: other in items + [it];
  }

  /**
   The tracking map after a run that did not fail: per UUID the latest of what was known and of all the
   seconds offered. Uploads and skips, and the order of groups, entries and deletions, make no difference.
   */
  lemma {:induction false} StatesAfterRun(p: Progress, items: seq<Item>, u: Uuid, t: Time)
    requires WholeStates(p.states) || WholeItems(items)
    requires !Run(p, items).failed
    ensures AtLeast(Run(p, items).states, u, t) <==> AtLeast(p.states, u, t) || OfferedBy(items, u, t)
    ensures WholeStates(p.states) ==> WholeStates(Run(p, items).states)
  {
    if items != [] {
      var n := |items| - 1;
      assert items == items[..n] + [items[n]];
      assert items[n] in items;
      assert WholeItems(items) ==> WholeItems(items[..n]);
      StatesAfterRun(p, items[..n], u, t);
      StatesAfterStep(Run(p, items[..n]), items[n], u, t);
      OfferedByAppend(items[..n], items[n], u, t);
    }
  }

  lemma {:induction false} RunRaises(p: Progress, items: seq<Item>)
    requires WholeStates(p.states) || WholeItems(items)
    ensures NotBelow(p.states, Run(p, items).states)
    ensures WholeStates(p.states) ==> WholeStates(Run(p, items).states)
    ensures p.sent <= Run(p, items).sent
  {
    if items != [] {
      var n := |items| - 1;
      assert items == items[..n] + [items[n]];
      assert WholeItems(items) ==> WholeItems(items[..n]) && Whole(items[n].trigger);
      RunRaises(p, items[..n]);
      StepRaises(Run(p, items[..n]), items[n]);
    }
  }

  lemma StepRaises(p: Progress, it: Item)
    requires WholeStates(p.states) || Whole(it.trigger)
    ensures NotBelow(p.states, Step(p, it).states)
    ensures WholeStates(p.states) ==> WholeStates(Step(p, it).states)
    ensures p.sent <= Step(p, it).sent
  {
    FloorIsLastSecond(it.trigger, it.trigger);
  }

  lemma {:induction false} AllOffered(items: seq<Item>, it: Item)
    requires it in items && !it.kind.GroupTombstone?
    ensures OfferedBy(items, it.uuid, Floor(it.trigger))
  {}

  lemma {:induction false} NoTombstonesAmong(x: Export)
    ensures forall it | it in Timestamped(x) :: !it.kind.GroupTombstone?
  {}

  /** The tracking map after an error-free push; the group tombstones leave no mark on it. */
  lemma StatesAfterPush(t: Tracked, x: Export, now: Time, replies: seq<Reply>, u: Uuid, s: Time)
    requires WholeStates(t.states) || WholeItems(Timestamped(x))
    requires !Push(t, x, now, replies).failed
    ensures AtLeast(Push(t, x, now, replies).tracked.states, u, s)
       <==> AtLeast(t.states, u, s) || OfferedBy(Timestamped(x), u, s)
    ensures WholeStates(t.states) ==> WholeStates(Push(t, x, now, replies).tracked.states)
  {
    var gi, ti, ei := GroupItems(x.groups), GroupTombstones(Missing(t.known, GroupUuids(x.groups)), now),
                      EntryItems(x.entries) + DeletionItems(x.deletions);
    assert forall it | it in gi :: it in Timestamped(x);
    assert forall it | it in ei :: it in Timestamped(x);
    var p1 := Run(Start(t.states, replies), gi);
    StatesAfterRun(Start(t.states, replies), gi, u, s);
    var p2 := if Refused(t.known, x) then p1 else Run(p1, ti);
    TombstonesKeepStates(p1, ti);
    StatesAfterRun(p2, ei, u, s);
    assert OfferedBy(Timestamped(x), u, s) <==> OfferedBy(gi, u, s) || OfferedBy(ei, u, s);
  }

  lemma {:induction false} TombstonesKeepStates(p: Progress, items: seq<Item>)
    requires forall it | it in items :: it.kind.GroupTombstone?
    ensures Run(p, items).states == p.states
    ensures !Run(p, items).failed ==> Run(p, items).sent == p.sent + items
  {
    if items != [] {
      var n := |items| - 1;
      assert items == items[..n] + [items[n]];
      TombstonesKeepStates(p, items[..n]);
      assert p.sent + items == p.sent + items[..n] + [items[n]];
    }
  }

  // ---------------------------------------------------------------- quiescence

  /** Nothing in the export is news to the tracking map, and no group deletion would go out. */
  ghost predicate Silent(t: Tracked, x: Export) {
    && (forall it | it in Timestamped(x) :: AtLeast(t.states, it.uuid, it.trigger))
    && (Missing(t.known, GroupUuids(x.groups)) == [] || Refused(t.known, x))
  }

  lemma {:induction false} RunSilent(p: Progress, items: seq<Item>)
    requires !p.failed
    requires forall it | it in items :: !it.kind.GroupTombstone? && AtLeast(p.states, it.uuid, it.trigger)
    ensures Run(p, items) == p
  {
    if items != [] {
      assert items[|items| - 1] in items;
      RunSilent(p, items[..|items| - 1]);
    }
  }

  /** With no replies to come, the first due upload fails; so not failing means nothing was due. */
  lemma {:induction false} RunStarved(p: Progress, items: seq<Item>)
    requires p.replies == [] && !Run(p, items).failed
    ensures Run(p, items) == p
    ensures forall it | it in items :: !it.kind.GroupTombstone? && AtLeast(p.states, it.uuid, it.trigger)
  {
    if items != [] {
      var n := |items| - 1;
      assert items == items[..n] + [items[n]];
      RunStarved(p, items[..n]);
    }
  }

  /** `Silent` is exactly the condition under which a push issues no request, whatever the network would do. */
  lemma SilentIff(t: Tracked, x: Export, now: Time, replies: seq<Reply>)
    ensures Silent(t, x) ==> Push(t, x, now, replies).sent == [] && !Push(t, x, now, replies).failed
    ensures Silent(t, x) ==> Push(t, x, now, replies).tracked.states == t.states
    ensures Silent(t, x) <==> !Push(t, x, now, []).failed
  {
    var gi, ei := GroupItems(x.groups), EntryItems(x.entries) + DeletionItems(x.deletions);
    var ti := GroupTombstones(Missing(t.known, GroupUuids(x.groups)), now);
    NoTombstonesAmong(x);
    assert forall i | 0 <= i < |ti| :: ti[i] in ti;
    assert forall it | it in gi :: it in Timestamped(x);
    assert forall it | it in ei :: it in Timestamped(x);
    if Silent(t, x) {
      RunSilent(Start(t.states, replies), gi);
      RunSilent(Start(t.states, replies), ei);
      RunSilent(Start(t.states, []), gi);
      RunSilent(Start(t.states, []), ei);
    }
    if !Push(t, x, now, []).failed {
      var p := Start(t.states, []);
      RunStarved(p, gi);
      if !Refused(t.known, x) {
        RunStarved(p, ti);
      }
      RunStarved(p, ei);
      assert Silent(t, x);
    }
  }

  /**
   Quiescence. After an error-free push of an export with whole-second times, a second push of the same
   export issues no request, whatever pulls have done in between (states only rise, known groups only go) and
   however entries, groups and deletions share UUIDs. If the guard refused, it must still have reason to, or
   nothing left to refuse.
   */
  lemma PushQuiesces(t: Tracked, x: Export, now: Time, replies: seq<Reply>, later: Tracked)
    requires WholeItems(Timestamped(x))
    requires !Push(t, x, now, replies).failed
    requires NotBelow(Push(t, x, now, replies).tracked.states, later.states)
    requires forall u | u in later.known :: u in Push(t, x, now, replies).tracked.known
    ensures Silent(later, x)
       <==> (Refused(t.known, x) ==> Refused(later.known, x) || forall u | u in later.known :: u in GroupUuids(x.groups))
    ensures Refused(t.known, x) && later.known == t.known ==> Silent(later, x)
  {
    var r := Push(t, x, now, replies);
    KnownAfterPush(t, x, now, replies);
    if forall u | u in later.known :: u in GroupUuids(x.groups) {
      MissingAll(later.known, GroupUuids(x.groups));
    }
    NoTombstonesAmong(x);
    forall it | it in Timestamped(x) ensures AtLeast(later.states, it.uuid, it.trigger) {
      AllOffered(Timestamped(x), it);
      StatesAfterPush(t, x, now, replies, it.uuid, it.trigger);
    }
  }

  ghost predicate LastOfItsUuid(items: seq<Item>, it: Item) {
    it in items && forall other | other in items && other.uuid == it.uuid :: other.trigger <= it.trigger
  }

  /** After an error-free push, the last offer of a UUID is known in full iff it is whole or was known before. */
  lemma LastOfferKnown(t: Tracked, x: Export, now: Time, replies: seq<Reply>, it: Item)
    requires WholeStates(t.states)
    requires !Push(t, x, now, replies).failed
    requires LastOfItsUuid(Timestamped(x), it)
    ensures AtLeast(Push(t, x, now, replies).tracked.states, it.uuid, it.trigger)
       <==> Whole(it.trigger) || AtLeast(t.states, it.uuid, it.trigger)
  {
    var items := Timestamped(x);
    NoTombstonesAmong(x);
    AllOffered(items, it);
    StatesAfterPush(t, x, now, replies, it.uuid, it.trigger);
    FloorIsLastSecond(it.trigger, it.trigger);
    if !Whole(it.trigger) {
      forall other | other in items && other.uuid == it.uuid ensures Floor(other.trigger) < it.trigger {
        FloorIsLastSecond(other.trigger, it.trigger);
      }
    }
  }

  /** Some object's latest time lies within a second and is not yet known. */
  ghost predicate FractionPending(t: Tracked, x: Export) {
    exists it :: LastOfItsUuid(Timestamped(x), it) && !Whole(it.trigger) && !AtLeast(t.states, it.uuid, it.trigger)
  }

  /**
   Without the whole-second assumption quiescence can fail, because the recorded text drops the fraction.
   It fails exactly when some object's latest time is a fraction of a second past anything known.
   */
  lemma QuiescentUnlessFractionPending(t: Tracked, x: Export, now: Time, replies: seq<Reply>)
    requires WholeStates(t.states)
    requires !Push(t, x, now, replies).failed
    ensures Silent(Push(t, x, now, replies).tracked, x) <==> !FractionPending(t, x)
  {
    var r := Push(t, x, now, replies).tracked;
    if FractionPending(t, x) {
      var it :| LastOfItsUuid(Timestamped(x), it) && !Whole(it.trigger) && !AtLeast(t.states, it.uuid, it.trigger);
      LastOfferKnown(t, x, now, replies, it);
    } else {
      forall it | it in Timestamped(x) ensures AtLeast(r.states, it.uuid, it.trigger) {
        var last := LatestOf(Timestamped(x), it);
        assert LastOfItsUuid(Timestamped(x), last);
        LastOfferKnown(t, x, now, replies, last);
      }
      KnownAfterPush(t, x, now, replies);
    }
  }

  /** After an error-free push no known group is missing from the export, unless the guard refused. */
  lemma KnownAfterPush(t: Tracked, x: Export, now: Time, replies: seq<Reply>)
    requires !Push(t, x, now, replies).failed
    ensures var r := Push(t, x, now, replies).tracked;
            if Refused(t.known, x) then r.known == t.known
            else r.known == SortedSeq(GroupUuids(x.groups)) && Missing(r.known, GroupUuids(x.groups)) == []
  {
    MissingAll(SortedSeq(GroupUuids(x.groups)), GroupUuids(x.groups));
  }

  lemma {:induction false} LatestOf(items: seq<Item>, it: Item) returns (last: Item)
    requires it in items
    ensures last in items && last.uuid == it.uuid && it.trigger <= last.trigger
    ensures forall other | other in items && other.uuid == it.uuid :: other.trigger <= last.trigger
    decreases |items|
  {
    var n := |items| - 1;
    assert items == items[..n] + [items[n]];
    last := it;
    var i := 0;
    while i < |items|
      invariant 0 <= i <= |items|
      invariant last in items && last.uuid == it.uuid && it.trigger <= last.trigger
      invariant forall other | other in items[..i] && other.uuid == it.uuid :: other.trigger <= last.trigger
    {
      assert items[..i + 1] == items[..i] + [items[i]];
      if items[i].uuid == it.uuid && items[i].trigger > last.trigger {
        last := items[i];
      }
      i := i + 1;
    }
    assert items[..i] == items;
  }

  /** The witness: an entry modified half a second past the epoch is uploaded by every push, for ever. */
  lemma HalfSecondIsPushedForEver(now: Time)
    ensures var x := Export([Entry(7, SECOND / 2, 0, None, "")], [], [], []);
            var once := Push(Tracked(0, map[], []), x, now, [Accepted(1)]);
            && !once.failed && |once.sent| == 1
            && Push(once.tracked, x, now, [Accepted(2)]).tracked == once.tracked
            && Push(once.tracked, x, now, [Accepted(2)]).sent == once.sent
  {
    var e := Entry(7, SECOND / 2, 0, None, "");
    var x := Export([e], [], [], []);
    var it := EntryItem(e);
    var items := EntryItems(x.entries) + DeletionItems(x.deletions);
    assert items == [it];
    assert items[..0] == [];
    assert GroupUuids(x.groups) == {};
    assert ToSet(x.trashed) == {};
    assert SortedSeq({}) == [];
    var p := Start(map[], [Accepted(1)]);
    assert Run(p, items) == Step(Run(p, []), it);
    var once := Push(Tracked(0, map[], []), x, now, [Accepted(1)]);
    assert once.tracked == Tracked(0, map[7 := At(0)], []);
    var q := Start(map[7 := At(0)], [Accepted(2)]);
    assert Run(q, items) == Step(Run(q, []), it);
  }

  // ---------------------------------------------------------------- the group-deletion guard

  function TombstonesIn(sent: seq<Item>): seq<Item> {
    if sent == [] then []
    else
      var n := |sent| - 1;
      TombstonesIn(sent[..n]) + (if sent[n].kind.GroupTombstone? then [sent[n]] else [])
  }

  lemma {:induction false} RunSendsOwnKind(p: Progress, items: seq<Item>)
    requires forall it | it in items :: !it.kind.GroupTombstone?
    ensures TombstonesIn(Run(p, items).sent) == TombstonesIn(p.sent)
  {
    if items != [] {
      var n := |items| - 1;
      assert items[n] in items;
      RunSendsOwnKind(p, items[..n]);
      var q := Run(p, items[..n]);
      assert (q.sent + [items[n]])[..|q.sent|] == q.sent;
    }
  }

  lemma {:induction false} TombstonesInAppend(sent: seq<Item>, items: seq<Item>)
    requires forall it | it in items :: it.kind.GroupTombstone?
    ensures TombstonesIn(sent + items) == TombstonesIn(sent) + items
  {
    if items == [] {
      assert sent + items == sent;
    } else {
      var n := |items| - 1;
      assert items[n] in items;
      assert (sent + items)[..|sent + items| - 1] == sent + items[..n];
      TombstonesInAppend(sent, items[..n]);
      assert items[..n] + [items[n]] == items;
    }
  }

  /**
   An error-free push tombstones nothing, or exactly the known groups the export no longer has, in order.
   When it is not refused, the groups found neither in the tree nor in the recycle bin are at most five or
   at most a quarter of the known ones, and the known groups become the exported ones. A refusal keeps them.
   */
  lemma GuardOnPush(t: Tracked, x: Export, now: Time, replies: seq<Reply>)
    requires !Push(t, x, now, replies).failed
    ensures var r := Push(t, x, now, replies);
            var doomed := Missing(t.known, GroupUuids(x.groups));
            var lost := |Missing(doomed, ToSet(x.trashed))|;
            if lost <= 5 || 4 * lost <= |t.known|
            then TombstonesIn(r.sent) == GroupTombstones(doomed, now)
                 && r.tracked.known == SortedSeq(GroupUuids(x.groups))
            else TombstonesIn(r.sent) == [] && r.tracked.known == t.known
  {
    KnownAfterPush(t, x, now, replies);
    TombstonesOfPush(t, x, now, replies);
  }

  lemma TombstonesOfParts(p: Progress, gi: seq<Item>, ti: seq<Item>, ei: seq<Item>)
    requires forall it | it in gi :: !it.kind.GroupTombstone?
    requires forall it | it in ti :: it.kind.GroupTombstone?
    requires forall it | it in ei :: !it.kind.GroupTombstone?
    requires p.sent == []
    ensures TombstonesIn(Run(Run(p, gi), ei).sent) == []
    ensures !Run(Run(p, gi), ti).failed ==> TombstonesIn(Run(Run(Run(p, gi), ti), ei).sent) == ti
  {
    RunSendsOwnKind(p, gi);
    RunSendsOwnKind(Run(p, gi), ei);
    var p1 := Run(p, gi);
    if !Run(p1, ti).failed {
      TombstonesKeepStates(p1, ti);
      TombstonesInAppend(p1.sent, ti);
      RunSendsOwnKind(Run(p1, ti), ei);
      assert [] + ti == ti;
    }
  }

  lemma TombstonesOfPush(t: Tracked, x: Export, now: Time, replies: seq<Reply>)
    requires !Push(t, x, now, replies).failed
    ensures TombstonesIn(Push(t, x, now, replies).sent)
         == if Refused(t.known, x) then [] else GroupTombstones(Missing(t.known, GroupUuids(x.groups)), now)
  {
    var gi, ei := GroupItems(x.groups), EntryItems(x.entries) + DeletionItems(x.deletions);
    var ti := GroupTombstones(Missing(t.known, GroupUuids(x.groups)), now);
    OwnKinds(x, now, Missing(t.known, GroupUuids(x.groups)));
    TombstonesOfParts(Start(t.states, replies), gi, ti, ei);
  }

  lemma OwnKinds(x: Export, now: Time, doomed: seq<Uuid>)
    ensures forall it | it in GroupItems(x.groups) :: !it.kind.GroupTombstone?
    ensures forall it | it in EntryItems(x.entries) + DeletionItems(x.deletions) :: !it.kind.GroupTombstone?
    ensures forall it | it in GroupTombstones(doomed, now) :: it.kind.GroupTombstone?
  {}

  /** Over any push, failed or not, the known groups stay sorted and free of duplicates. */
  lemma KnownGroupsStaySorted(t: Tracked, x: Export, now: Time, replies: seq<Reply>)
    requires StrictlyIncreasing(t.known)
    ensures StrictlyIncreasing(Push(t, x, now, replies).tracked.known)
  {}
}
