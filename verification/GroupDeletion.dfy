/**
 Deleting a group. The group leaves the file, the push misses it and tombstones it with the time of the push
 (client/cmd/keepass-deltasync/syncop.go); deleted for good, it is also exported as a deletion with its own time
 (client/internal/kdbx/xml.go), which goes out last. Which of the two the server ends with, when it prevails over
 the other devices' copies, and when the devices come to agree, exactly.
 */
module GroupDeletion {
  import opened Basics
  import opened Tracking
  import opened GroupTree
  import opened PushSide
  import opened PullSide
  import opened Server
  import opened Devices
  import opened Moves

  // ---------------------------------------------------------------- one device's turn, seen from one group

  ghost predicate Present(dev: Dev, g: Uuid) {
    g in dev.file && dev.file[g].Live?
  }

  /** The device has something about `g` that it has yet to say. */
  ghost predicate Due(dev: Dev, g: Uuid) {
    g in dev.file && !AtLeast(dev.tracked.states, g, Trigger(dev.file[g]))
  }

  ghost predicate Arrives(dev: Dev, log: seq<Version>, g: Uuid) {
    InLog(log, g) && Newest(log, g).value >= dev.tracked.lastSeq
  }

  /** The group in the file after a pull, and what is recorded of it. */
  lemma PulledGroup(dev: Dev, log: seq<Version>, g: Uuid)
    requires 0 <= dev.tracked.lastSeq <= |log|
    ensures var p := PulledDev(dev, log);
            && (if Arrives(dev, log, g)
                then g in p.file
                     && p.file[g] == (if g in dev.file then Merge(dev.file[g], Arriving(dev, log, g)) else Arriving(dev, log, g))
                else (g in p.file <==> g in dev.file) && (g in dev.file ==> p.file[g] == dev.file[g]))
            && (forall t | AtLeast(dev.tracked.states, g, t) :: AtLeast(p.tracked.states, g, t))
            && p.tracked.lastSeq == |log|
  {
    PullReadsSeconds(dev, log, true);
    if Arrives(dev, log, g) {
      assert Newest(log, g).value in Offered(log, dev.tracked.lastSeq);
      assert g in OfferedUuids(log, dev.tracked.lastSeq);
    }
  }

  /** And among the known groups: forgotten when a tombstone arrives. */
  lemma PulledKnown(dev: Dev, log: seq<Version>, g: Uuid)
    requires 0 <= dev.tracked.lastSeq <= |log|
    ensures g in PulledDev(dev, log).tracked.known
       <==> g in dev.tracked.known && !(Arrives(dev, log, g) && Latest(log, g).Dead?)
  {
    KnownAfterPull(dev, log, g);
    if Arrives(dev, log, g) {
      assert Newest(log, g).value in Offered(log, dev.tracked.lastSeq);
    }
  }

  /** A push that goes through, of a device that misses no known group `g`. */
  lemma GroupPush(dev: Dev, log: seq<Version>, d: Device, answers: nat, now: Time, g: Uuid)
    requires NotDoomed(dev, g) && answers >= |ItemsOf(dev, now)|
    ensures Sendable(dev.file, PushedDev(dev, log, answers, now).sent)
    ensures var r := PushedDev(dev, log, answers, now);
            var log' := log + Uploaded(d, dev.file, r.sent);
            && !r.failed && Max(|log|, r.maxSeq) == |log'| && (g in r.tracked.known ==> g in Folders(dev.file))
            && (if Due(dev, g)
                then InLog(log', g) && Latest(log', g) == Stamped(dev.file[g]) && Newest(log', g).value >= |log|
                else Newest(log', g) == Newest(log, g) && (InLog(log, g) ==> Latest(log', g) == Latest(log, g)))
            && (!Due(dev, g) && g in dev.file ==> AtLeast(r.tracked.states, g, Trigger(dev.file[g])))
  {
    PushGoesThrough(dev, log, answers, now);
    PushTracks(dev, log, answers, now, g);
    SentIsSendable(dev, log, answers, now);
    var sent := PushedDev(dev, log, answers, now).sent;
    if g in dev.file {
      PushSendsIff(dev, log, answers, now, g);
      SentAsItIs(dev, log, answers, now, g);
      NewestAfterUploads(log, d, dev.file, sent, g, Stamped(dev.file[g]));
    } else {
      PushSendsNothingElse(dev, log, answers, now, g);
      NewestAfterUploads(log, d, dev.file, sent, g, Dead(0));
    }
  }

  /** A complete turn of a device that, after the pull, misses no known group `g`. */
  lemma GroupTurn(dev: Dev, log: seq<Version>, d: Device, answers: nat, now: Time, g: Uuid)
    requires Cycles(dev, log, answers, now) && NotDoomed(PulledDev(dev, log), g)
    ensures var p, log' := PulledDev(dev, log), LogAfter(dev, log, d, answers, now);
            var dev' := SyncedDev(dev, log, answers, true, now);
            && dev'.file == p.file && dev'.tracked.lastSeq == |log'| && log <= log' && NotDoomed(dev', g)
            && (if Due(p, g)
                then InLog(log', g) && Latest(log', g) == Stamped(p.file[g]) && Newest(log', g).value >= |log|
                else Newest(log', g) == Newest(log, g) && (InLog(log, g) ==> Latest(log', g) == Latest(log, g)))
            && (!Due(p, g) ==> !Due(dev', g))
  {
    GroupPush(PulledDev(dev, log), log, d, answers, now, g);
  }

  // ---------------------------------------------------------------- two tombstones of one group

  /** The last upload for an object. */
  function LastSent(sent: seq<Item>, u: Uuid): (r: Option<Item>)
    ensures r.Some? ==> r.value in sent && r.value.uuid == u
    ensures r.Some? <==> Sends(sent, u)
  {
    if sent == [] then None
    else
      var n := |sent| - 1;
      assert sent == sent[..n] + [sent[n]];
      if sent[n].uuid == u then Some(sent[n]) else LastSent(sent[..n], u)
  }

  /** decides what the server has of it. */
  lemma {:induction false} LatestIsLastSent(log: seq<Version>, d: Device, file: Local, sent: seq<Item>, u: Uuid)
    requires Sendable(file, sent) && LastSent(sent, u).Some?
    ensures var log' := log + Uploaded(d, file, sent);
            InLog(log', u) && Newest(log', u).value >= |log| && Latest(log', u) == SentObj(file, LastSent(sent, u).value)
  {
    var n := |sent| - 1;
    OneMoreUploaded(d, file, sent, log);
    NewestAppend(log + Uploaded(d, file, sent[..n]), Version(d, sent[n].uuid, SentObj(file, sent[n])), u);
    if sent[n].uuid != u {
      LatestIsLastSent(log, d, file, sent[..n], u);
    }
  }

  /** Items for `u` that are group tombstones, or known already, leave what is recorded of it. */
  lemma {:induction false} KnownIsUnsent(p: Progress, items: seq<Item>, u: Uuid)
    requires forall it | it in items && it.uuid == u :: it.kind.GroupTombstone? || AtLeast(p.states, u, it.trigger)
    requires forall it | it in p.sent && it.uuid == u :: it.kind.GroupTombstone?
    ensures forall t :: AtLeast(Run(p, items).states, u, t) <==> AtLeast(p.states, u, t)
    ensures forall it | it in Run(p, items).sent && it.uuid == u :: it.kind.GroupTombstone?
  {
    if items != [] {
      var n := |items| - 1;
      assert items == items[..n] + [items[n]];
      KnownIsUnsent(p, items[..n], u);
      var q := Run(p, items[..n]);
      assert Run(p, items).sent == q.sent || Run(p, items).sent == q.sent + [items[n]];
    }
  }

  /** An item sent, with none for the same object behind it, is the last one sent for it. */
  lemma {:induction false} StaysLast(p: Progress, items: seq<Item>, i: nat)
    requires i < |items| && !Run(p, items).failed && forall j | i < j < |items| :: items[j].uuid != items[i].uuid
    requires items[i].kind.GroupTombstone? || ShouldPush(Run(p, items[..i]).states, items[i].uuid, items[i].trigger)
    ensures LastSent(Run(p, items).sent, items[i].uuid) == Some(items[i])
  {
    var n := |items| - 1;
    var front := items[..n];
    var q := Run(p, front);
    LastSentAppend(q.sent, items[n], items[i].uuid);
    if i < n {
      assert front[..i] == items[..i] && forall j | i < j < n :: front[j] == items[j];
      StaysLast(p, front, i);
      assert Step(q, items[n]).sent == q.sent || Step(q, items[n]).sent == q.sent + [items[n]];
    } else {
      assert Step(q, items[n]).sent == q.sent + [items[n]];
    }
  }

  lemma LastSentAppend(sent: seq<Item>, it: Item, u: Uuid)
    ensures LastSent(sent + [it], u) == if it.uuid == u then Some(it) else LastSent(sent, u)
  {
    assert (sent + [it])[..|sent|] == sent;
  }

  /** Group tombstones go out before anything that is no group. */
  lemma NoTombstoneBehind(dev: Dev, now: Time, k: nat, j: nat)
    requires k < j < |ItemsOf(dev, now)|
    requires !ItemsOf(dev, now)[k].kind.GroupTombstone? && ItemsOf(dev, now)[k].uuid !in Folders(dev.file)
    ensures !ItemsOf(dev, now)[j].kind.GroupTombstone?
  {
    var b := BatchOf(dev, now);
    TombsInBatch(dev, now, b, k, j);
  }

  lemma TombsInBatch(dev: Dev, now: Time, b: Batch, k: nat, j: nat)
    requires IsBatch(dev, now, b) && k < j < |Items(b)|
    requires !Items(b)[k].kind.GroupTombstone? && Items(b)[k].uuid !in Folders(dev.file)
    ensures !Items(b)[j].kind.GroupTombstone?
  {
    ItemInBatch(b, k);
    ItemInBatch(b, j);
    assert forall i | 0 <= i < |Walk(dev.file)| :: Walk(dev.file)[i] in Walk(dev.file);
  }

  /** The device has no live copy of `g`. */
  ghost predicate Lacks(dev: Dev, g: Uuid) {
    g in dev.file ==> dev.file[g].Dead?
  }

  /** A deletion of the device's own that is due is the last thing a push that goes through says of the object. */
  lemma DeletionSentLast(dev: Dev, log: seq<Version>, answers: nat, now: Time, g: Uuid)
    requires Lacks(dev, g) && Due(dev, g) && answers >= |ItemsOf(dev, now)|
    ensures var last := LastSent(PushedDev(dev, log, answers, now).sent, g);
            last.Some? && !last.value.kind.GroupTombstone?
  {
    var items, p := ItemsOf(dev, now), Start(dev.tracked.states, Consecutive(|log|, answers));
    PushIsOneRun(dev, now, Consecutive(|log|, answers));
    PushGoesThrough(dev, log, answers, now);
    ItemsFromDevice(dev, now);
    var k := ItemOf(dev, now, g);
    forall j | 0 <= j < |items| && j != k
      ensures items[j].uuid == g ==> items[j].kind.GroupTombstone?
      ensures j > k ==> items[j].uuid != g
    {
      if !items[j].kind.GroupTombstone? {
        if j < k { ItemsDiffer(dev, now, j, k); } else { ItemsDiffer(dev, now, k, j); }
      } else if j > k {
        NoTombstoneBehind(dev, now, k, j);
      }
    }
    assert items[k] in items && FromDevice(dev, now, items[k]);
    KnownIsUnsent(p, items[..k], g);
    StaysLast(p, items, k);
  }

  /** Without one, a known group that is missing has the push's own tombstone last, unless the guard refuses. */
  lemma TombstoneSentLast(dev: Dev, log: seq<Version>, answers: nat, now: Time, g: Uuid)
    requires Lacks(dev, g) && !Due(dev, g) && answers >= |ItemsOf(dev, now)|
    requires g in dev.tracked.known && !Refused(dev.tracked.known, ExportOf(dev))
    ensures var r := PushedDev(dev, log, answers, now);
            var last := LastSent(r.sent, g);
            && last.Some? && last.value.kind.GroupTombstone?
            && forall t :: AtLeast(r.tracked.states, g, t) <==> AtLeast(dev.tracked.states, g, t)
  {
    var items, p := ItemsOf(dev, now), Start(dev.tracked.states, Consecutive(|log|, answers));
    PushIsOneRun(dev, now, Consecutive(|log|, answers));
    PushGoesThrough(dev, log, answers, now);
    ItemsFromDevice(dev, now);
    KnownIsUnsent(p, items, g);
    var k := DoomedItem(dev, now, g);
    TombstoneIsSent(p, items, k);
  }

  lemma DoomedItem(dev: Dev, now: Time, g: Uuid) returns (k: nat)
    requires g in dev.tracked.known && g !in Folders(dev.file) && !Refused(dev.tracked.known, ExportOf(dev))
    ensures k < |ItemsOf(dev, now)| && ItemsOf(dev, now)[k].uuid == g && ItemsOf(dev, now)[k].kind.GroupTombstone?
  {
    var gone := Missing(dev.tracked.known, Folders(dev.file));
    assert g in gone;
    var j :| 0 <= j < |gone| && gone[j] == g;
    k := TombOf(dev, now, j);
  }

  /** The time the server ends with: that of the deletion itself if it is news, else that of the push. */
  ghost function DeathOf(dev: Dev, g: Uuid, now: Time): Time {
    if Due(dev, g) then Floor(dev.file[g].mod) else Floor(now)
  }

  /** The push is about to say that `g` is gone, and the guard is not in the way. */
  ghost predicate Pronounces(dev: Dev, g: Uuid) {
    && Lacks(dev, g) && (g in dev.tracked.known || Due(dev, g))
    && (g in dev.tracked.known ==> !Refused(dev.tracked.known, ExportOf(dev)))
  }

  lemma LastObject(dev: Dev, log: seq<Version>, answers: nat, now: Time, it: Item)
    requires it in PushedDev(dev, log, answers, now).sent
    ensures Sendable(dev.file, PushedDev(dev, log, answers, now).sent)
    ensures it.kind.GroupTombstone? || it.uuid in dev.file
    ensures SentObj(dev.file, it) == if it.kind.GroupTombstone? then Dead(Floor(now)) else Stamped(dev.file[it.uuid])
  {
    SentIsSendable(dev, log, answers, now);
  }

  /** Such a push leaves the group dead on the server, as of that time, and forgets it. */
  lemma DeletingPush(dev: Dev, log: seq<Version>, d: Device, answers: nat, now: Time, g: Uuid)
    requires Pronounces(dev, g) && answers >= |ItemsOf(dev, now)|
    ensures Sendable(dev.file, PushedDev(dev, log, answers, now).sent)
    ensures var r := PushedDev(dev, log, answers, now);
            var log' := log + Uploaded(d, dev.file, r.sent);
            && !r.failed && g !in r.tracked.known && Max(|log|, r.maxSeq) == |log'|
            && InLog(log', g) && Latest(log', g) == Dead(DeathOf(dev, g, now)) && Newest(log', g).value >= |log|
            && (!Due(dev, g) ==> forall t :: AtLeast(dev.tracked.states, g, t) ==> AtLeast(r.tracked.states, g, t))
  {
    PushGoesThrough(dev, log, answers, now);
    PushTracks(dev, log, answers, now, g);
    if Due(dev, g) {
      DeletionSentLast(dev, log, answers, now, g);
    } else {
      TombstoneSentLast(dev, log, answers, now, g);
    }
    var sent := PushedDev(dev, log, answers, now).sent;
    LastObject(dev, log, answers, now, LastSent(sent, g).value);
    LatestIsLastSent(log, d, dev.file, sent, g);
  }

  /** The guard holds back the push's own tombstones only: a permanent deletion goes out all the same. */
  lemma DeletionPassesTheGuard(dev: Dev, log: seq<Version>, d: Device, answers: nat, now: Time, g: Uuid)
    requires g in dev.tracked.known && Refused(dev.tracked.known, ExportOf(dev))
    requires Lacks(dev, g) && Due(dev, g) && answers >= |ItemsOf(dev, now)|
    ensures Sendable(dev.file, PushedDev(dev, log, answers, now).sent)
    ensures var r := PushedDev(dev, log, answers, now);
            var log' := log + Uploaded(d, dev.file, r.sent);
            InLog(log', g) && Latest(log', g) == Dead(Floor(dev.file[g].mod)) && r.tracked.known == dev.tracked.known
  {
    DeletionSentLast(dev, log, answers, now, g);
    var sent := PushedDev(dev, log, answers, now).sent;
    LastObject(dev, log, answers, now, LastSent(sent, g).value);
    LatestIsLastSent(log, d, dev.file, sent, g);
  }

  // ---------------------------------------------------------------- the deletion

  /** The cycle of the device will pronounce the group dead. */
  ghost predicate Deletes(dev: Dev, log: seq<Version>, g: Uuid) {
    0 <= dev.tracked.lastSeq <= |log| && Pronounces(PulledDev(dev, log), g)
  }

  ghost function Death(dev: Dev, log: seq<Version>, g: Uuid, now: Time): Time
    requires dev.tracked.lastSeq >= 0
  {
    DeathOf(PulledDev(dev, log), g, now)
  }

  /** What a device that has dealt with the tombstone of time `s` may have of the group, and need not say. */
  ghost predicate Informed(dev: Dev, g: Uuid, s: Time, b: Time) {
    && NotDoomed(dev, g)
    && (g in dev.file ==>
          if dev.file[g].Live? then IsFolder(dev.file[g]) && Floor(dev.file[g].mod) >= b
          else Floor(dev.file[g].mod) == s || !Due(dev, g))
  }

  /** The cycle of the device that deletes leaves the tombstone on the server and forgets the group. */
  lemma DeletingTurn(dev: Dev, log: seq<Version>, d: Device, answers: nat, now: Time, g: Uuid, b: Time)
    requires Deletes(dev, log, g) && Cycles(dev, log, answers, now)
    ensures var s, log' := Death(dev, log, g, now), LogAfter(dev, log, d, answers, now);
            var dev' := SyncedDev(dev, log, answers, true, now);
            && log <= log' && Lacks(dev', g) && Informed(dev', g, s, b) && dev'.tracked.lastSeq == |log'|
            && InLog(log', g) && Latest(log', g) == Dead(s) && Newest(log', g).value >= |log|
  {
    DeletingPush(PulledDev(dev, log), log, d, answers, now, g);
  }

  // ---------------------------------------------------------------- what the tombstone meets

  /** The device has the group, or deleted it no later than `s`, or has said so already. */
  ghost predicate Tame(dev: Dev, log: seq<Version>, g: Uuid, s: Time) {
    && 0 <= dev.tracked.lastSeq <= |log|
    && (g in dev.file ==>
          if dev.file[g].Live? then IsFolder(dev.file[g]) else Floor(dev.file[g].mod) <= s || !Due(dev, g))
  }

  /**
   Whoever is about to pronounce the group dead too did so before `b`, and whoever modified it after `s` did so no
   earlier than `b`. With whole seconds `b` is the second after `s`.
   */
  ghost predicate Apart(dev: Dev, g: Uuid, s: Time, b: Time) {
    && (Present(dev, g) ==> dev.file[g].mod <= s || Floor(dev.file[g].mod) >= b)
    && (!NotDoomed(dev, g) && g in dev.file ==> dev.file[g].mod < b)
  }

  lemma WholeTimesAreApart(dev: Dev, log: seq<Version>, g: Uuid, s: Time)
    requires Tame(dev, log, g, s) && Whole(s) && (g in dev.file ==> Whole(dev.file[g].mod))
    requires !NotDoomed(dev, g) && g in dev.file ==> dev.file[g].mod <= s
    ensures Whole(s + SECOND) && Apart(dev, g, s, s + SECOND)
  {
    if g in dev.file {
      FloorIsLastSecond(dev.file[g].mod, dev.file[g].mod);
    }
  }

  /** The server has the tombstone at `at`, and the newest version is that or a group no older than `b`. */
  ghost predicate Told(log: seq<Version>, g: Uuid, s: Time, b: Time, at: nat) {
    && InLog(log, g) && Newest(log, g).value >= at
    && (Latest(log, g) == Dead(s) || (IsFolder(Latest(log, g)) && Latest(log, g).mod >= b))
  }

  ghost predicate Reached(dev: Dev, log: seq<Version>, g: Uuid, s: Time, b: Time, at: nat) {
    Tame(dev, log, g, s) && if dev.tracked.lastSeq > at then Informed(dev, g, s, b) else Apart(dev, g, s, b)
  }

  predicate Times(s: Time, b: Time) {
    Whole(s) && Whole(b) && s <= b
  }

  lemma MeetsTombstone(mine: Obj, s: Time, folders: set<Uuid>)
    ensures Merge(mine, Filed(Dead(s), folders)) == if mine.mod > s then mine else Dead(s)
  {}

  lemma MeetsGroup(mine: Obj, theirs: Obj, folders: set<Uuid>)
    requires IsFolder(theirs) && (mine.Live? ==> IsFolder(mine))
    ensures var o := Merge(mine, Filed(theirs, folders));
            if mine.Dead? && mine.mod >= theirs.mod then o == mine
            else IsFolder(o) && o.mod >= theirs.mod && (mine.Live? ==> o.mod >= mine.mod)
  {}

  /** The tombstone arrives. */
  lemma TombstoneInforms(dev: Dev, log: seq<Version>, g: Uuid, s: Time, b: Time, at: nat)
    requires Times(s, b) && Reached(dev, log, g, s, b, at) && Arrives(dev, log, g) && Latest(log, g) == Dead(s)
    requires dev.tracked.lastSeq <= at || Informed(dev, g, s, b)
    ensures var p := PulledDev(dev, log);
            && Informed(p, g, s, b)
            && g in p.file && p.file[g] == (if g in dev.file && dev.file[g].mod > s then dev.file[g] else Dead(s))
  {
    PulledGroup(dev, log, g);
    PulledKnown(dev, log, g);
    FloorIsLastSecond(s, s);
    if g in dev.file {
      MeetsTombstone(dev.file[g], s, StagedFolders(dev.file, log, dev.tracked.lastSeq));
      FloorIsLastSecond(dev.file[g].mod, s);
    }
  }

  /** A later modification arrives. */
  lemma GroupInforms(dev: Dev, log: seq<Version>, g: Uuid, s: Time, b: Time, at: nat)
    requires Times(s, b) && Reached(dev, log, g, s, b, at) && Arrives(dev, log, g)
    requires IsFolder(Latest(log, g)) && Latest(log, g).mod >= b
    requires dev.tracked.lastSeq <= at || Informed(dev, g, s, b)
    ensures var p := PulledDev(dev, log);
            && Informed(p, g, s, b)
            && (Present(dev, g) ==> Present(p, g) && p.file[g].mod >= dev.file[g].mod)
  {
    PulledGroup(dev, log, g);
    PulledKnown(dev, log, g);
    var p, theirs := PulledDev(dev, log), Latest(log, g);
    FloorIsLastSecond(p.file[g].mod, b);
    if g in dev.file {
      MeetsGroup(dev.file[g], theirs, StagedFolders(dev.file, log, dev.tracked.lastSeq));
      FloorIsLastSecond(dev.file[g].mod, s);
    }
  }

  /** However many devices have synced since, a pull informs, and brings back no group that the tombstone beats. */
  lemma PullInforms(dev: Dev, log: seq<Version>, g: Uuid, s: Time, b: Time, at: nat)
    requires Times(s, b) && Told(log, g, s, b, at) && Reached(dev, log, g, s, b, at)
    ensures var p := PulledDev(dev, log);
            && Informed(p, g, s, b) && p.tracked.lastSeq == |log|
            && (Latest(log, g) == Dead(s) && Present(p, g) ==> Present(dev, g) && p.file[g] == dev.file[g])
            && (Latest(log, g) == Dead(s) && dev.tracked.lastSeq <= at && g in dev.file && dev.file[g].mod <= s ==>
                  !Present(p, g))
            && (Present(dev, g) && dev.file[g].mod > s ==> Present(p, g) && p.file[g].mod > s)
            && (!Due(dev, g) && g in p.file && g in dev.file && p.file[g] == dev.file[g] ==> !Due(p, g))
  {
    PulledGroup(dev, log, g);
    PulledKnown(dev, log, g);
    if Arrives(dev, log, g) {
      if Latest(log, g) == Dead(s) {
        TombstoneInforms(dev, log, g, s, b, at);
      } else {
        GroupInforms(dev, log, g, s, b, at);
      }
    }
  }

  /** A turn of any device: afterwards it is informed, and what it uploads of the group is no older than the tombstone. */
  lemma ReachedTurn(dev: Dev, log: seq<Version>, d: Device, answers: nat, now: Time, g: Uuid, s: Time, b: Time, at: nat)
    requires Times(s, b) && Told(log, g, s, b, at) && Reached(dev, log, g, s, b, at) && Cycles(dev, log, answers, now)
    ensures var p, log' := PulledDev(dev, log), LogAfter(dev, log, d, answers, now);
            var dev' := SyncedDev(dev, log, answers, true, now);
            && Told(log', g, s, b, at) && Reached(dev', log', g, s, b, at) && dev'.tracked.lastSeq > at
            && dev'.file == p.file && log <= log'
            && (!Due(p, g) ==> !Due(dev', g))
            && (!Due(p, g) || !Present(p, g) ==> Latest(log, g) == Dead(s) ==> Latest(log', g) == Dead(s))
  {
    PullInforms(dev, log, g, s, b, at);
    GroupTurn(dev, log, d, answers, now, g);
    var p := PulledDev(dev, log);
    if g in p.file {
      FloorIsLastSecond(p.file[g].mod, s);
    }
  }

  // ---------------------------------------------------------------- and then the others' turns

  /** The world from the deletion at `at` on. */
  ghost predicate Marked(w: World, g: Uuid, s: Time, b: Time, at: nat) {
    && Times(s, b) && Told(w.log, g, s, b, at)
    && forall k | 0 <= k < |w.devs| :: Reached(w.devs[k], w.log, g, s, b, at)
  }

  lemma MarkedTurn(w: World, t: Turn, g: Uuid, s: Time, b: Time, at: nat)
    requires Tidy(w) && Has(w, t.device) && Marked(w, g, s, b, at)
    ensures Marked(FullNext(w, t), g, s, b, at) && FullNext(w, t).devs[t.device].tracked.lastSeq > at
  {
    var w', e := FullNext(w, t), FullSync(w, t);
    NextSync(w, e);
    ReachedTurn(w.devs[t.device], w.log, t.device, e.answers, t.now, g, s, b, at);
    forall k | 0 <= k < |w'.devs| ensures Reached(w'.devs[k], w'.log, g, s, b, at) {
      assert Reached(w.devs[k], w.log, g, s, b, at);
    }
  }

  // The tombstone prevails: it stays the server's newest, and whoever pulled it has no group.

  ghost predicate Beaten(dev: Dev, g: Uuid, s: Time, at: nat) {
    Present(dev, g) ==> dev.file[g].mod <= s && dev.tracked.lastSeq <= at
  }

  ghost predicate Prevailing(w: World, g: Uuid, s: Time, b: Time, at: nat) {
    Marked(w, g, s, b, at) && Latest(w.log, g) == Dead(s) && forall k | 0 <= k < |w.devs| :: Beaten(w.devs[k], g, s, at)
  }

  ghost predicate Pulled(w: World, d: Device, at: nat) {
    Has(w, d) && w.devs[d].tracked.lastSeq > at
  }

  lemma BeatenTurn(dev: Dev, log: seq<Version>, d: Device, answers: nat, now: Time, g: Uuid, s: Time, b: Time, at: nat)
    requires Times(s, b) && Told(log, g, s, b, at) && Reached(dev, log, g, s, b, at) && Cycles(dev, log, answers, now)
    requires Latest(log, g) == Dead(s) && Beaten(dev, g, s, at)
    ensures Told(LogAfter(dev, log, d, answers, now), g, s, b, at)
    ensures Latest(LogAfter(dev, log, d, answers, now), g) == Dead(s)
    ensures !Present(SyncedDev(dev, log, answers, true, now), g)
  {
    PullInforms(dev, log, g, s, b, at);
    ReachedTurn(dev, log, d, answers, now, g, s, b, at);
  }

  lemma PrevailingTurn(w: World, t: Turn, g: Uuid, s: Time, b: Time, at: nat)
    requires Tidy(w) && Has(w, t.device) && Prevailing(w, g, s, b, at)
    ensures Prevailing(FullNext(w, t), g, s, b, at) && Pulled(FullNext(w, t), t.device, at)
    ensures forall x | Pulled(w, x, at) :: Pulled(FullNext(w, t), x, at)
  {
    var e, w' := FullSync(w, t), FullNext(w, t);
    NextSync(w, e);
    MarkedTurn(w, t, g, s, b, at);
    assert Beaten(w.devs[t.device], g, s, at) && Reached(w.devs[t.device], w.log, g, s, b, at);
    BeatenTurn(w.devs[t.device], w.log, t.device, e.answers, t.now, g, s, b, at);
    forall k | 0 <= k < |w'.devs| ensures Beaten(w'.devs[k], g, s, at) {
      assert Beaten(w.devs[k], g, s, at);
    }
  }

  lemma PrevailsAfterRound(w: World, g: Uuid, s: Time, b: Time, at: nat, turns: seq<Turn>)
    requires Tidy(w) && Prevailing(w, g, s, b, at) && EveryoneIn(w, turns)
    ensures GoneEverywhere(Round(w, turns), g) && Prevailing(Round(w, turns), g, s, b, at)
  {
    var inv := (v: World) => Prevailing(v, g, s, b, at);
    var bit := (v: World, x: Device) => Pulled(v, x, at);
    forall v, t: Turn | Tidy(v) && Has(v, t.device) && inv(v)
      ensures inv(FullNext(v, t)) && bit(FullNext(v, t), t.device)
      ensures forall x | bit(v, x) :: bit(FullNext(v, t), x)
    {
      PrevailingTurn(v, t, g, s, b, at);
    }
    RoundOfAll(w, turns, inv, bit);
    var r := Round(w, turns);
    forall k | 0 <= k < |r.devs| ensures !Present(r.devs[k], g) {
      assert bit(r, k);
      assert Beaten(r.devs[k], g, s, at);
    }
  }

  // The tombstone does not prevail: some device's copy is later, and stays.

  ghost predicate Survives(w: World, d: Device, g: Uuid, s: Time) {
    Has(w, d) && Present(w.devs[d], g) && w.devs[d].file[g].mod > s
  }

  lemma SurvivingTurn(w: World, t: Turn, g: Uuid, s: Time, b: Time, at: nat, d: Device)
    requires Tidy(w) && Has(w, t.device) && Marked(w, g, s, b, at) && Survives(w, d, g, s)
    ensures Marked(FullNext(w, t), g, s, b, at) && Survives(FullNext(w, t), d, g, s)
  {
    NextSync(w, FullSync(w, t));
    MarkedTurn(w, t, g, s, b, at);
    assert Reached(w.devs[d], w.log, g, s, b, at);
    StillPresent(w.devs[d], w.log, g, s, b, at);
  }

  lemma StillPresent(dev: Dev, log: seq<Version>, g: Uuid, s: Time, b: Time, at: nat)
    requires Times(s, b) && Told(log, g, s, b, at) && Reached(dev, log, g, s, b, at)
    requires Present(dev, g) && dev.file[g].mod > s
    ensures Present(PulledDev(dev, log), g) && PulledDev(dev, log).file[g].mod > s
  {
    PullInforms(dev, log, g, s, b, at);
  }

  lemma SurvivesRound(w: World, g: Uuid, s: Time, b: Time, at: nat, k: Device, turns: seq<Turn>)
    requires Tidy(w) && Marked(w, g, s, b, at) && Survives(w, k, g, s) && EveryoneIn(w, turns)
    ensures Survives(Round(w, turns), k, g, s)
  {
    var inv := (v: World) => Marked(v, g, s, b, at) && Survives(v, k, g, s);
    var bit := (v: World, x: Device) => true;
    forall v, t: Turn | Tidy(v) && Has(v, t.device) && inv(v)
      ensures inv(FullNext(v, t)) && bit(FullNext(v, t), t.device)
      ensures forall x | bit(v, x) :: bit(FullNext(v, t), x)
    {
      SurvivingTurn(v, t, g, s, b, at, k);
    }
    RoundCarries(w, turns, inv, bit, 0);
  }

  // ---------------------------------------------------------------- when it prevails

  ghost predicate GoneEverywhere(w: World, g: Uuid) {
    forall k | 0 <= k < |w.devs| :: !Present(w.devs[k], g)
  }

  /** No device but `d` has modified the group after `s`. */
  ghost predicate NoneLater(w: World, d: Device, g: Uuid, s: Time) {
    forall k | 0 <= k < |w.devs| && k != d && Present(w.devs[k], g) :: w.devs[k].file[g].mod <= s
  }

  /**
   Device `d` is about to pronounce the group dead as of `s`. The others have it, or deleted it too, synced or not,
   but not as of later: of several deletions this is the last.
   */
  ghost predicate Deleting(w: World, d: Device, g: Uuid, s: Time, b: Time) {
    && Tidy(w) && Has(w, d) && Deletes(w.devs[d], w.log, g) && Times(s, b)
    && forall k | 0 <= k < |w.devs| && k != d :: Tame(w.devs[k], w.log, g, s) && Apart(w.devs[k], g, s, b)
  }

  lemma AfterDeletion(w: World, d: Device, g: Uuid, now: Time, s: Time, b: Time) returns (at: nat)
    requires Deleting(w, d, g, s, b) && s == Death(w.devs[d], w.log, g, now)
    ensures var w' := FullNext(w, Turn(d, now));
            && Marked(w', g, s, b, at) && Latest(w'.log, g) == Dead(s) && Lacks(w'.devs[d], g)
            && |w'.devs| == |w.devs|
            && forall k | 0 <= k < |w.devs| && k != d :: w'.devs[k] == w.devs[k] && w.devs[k].tracked.lastSeq <= at
  {
    var t := Turn(d, now);
    var e, w' := FullSync(w, t), FullNext(w, t);
    NextSync(w, e);
    DeletingTurn(w.devs[d], w.log, d, e.answers, now, g, b);
    at := Newest(w'.log, g).value;
    forall k | 0 <= k < |w'.devs| ensures Reached(w'.devs[k], w'.log, g, s, b, at) {
      if k != d {
        assert Tame(w.devs[k], w.log, g, s) && Apart(w.devs[k], g, s, b);
      }
    }
  }

  /**
   A deletion prevails, so that after the other devices' next cycles nobody has the group and the server says so,
   if and only if its time of death is no earlier than the last modification of the group on any other device.
   That time is the deletion's own, if the device lists it and has not recorded it yet, and else the time of the push.
   */
  lemma DeletionPrevailsIff(w: World, d: Device, g: Uuid, now: Time, s: Time, b: Time, turns: seq<Turn>)
    requires Deleting(w, d, g, s, b) && s == Death(w.devs[d], w.log, g, now) && EveryoneIn(w, turns)
    ensures var r := Round(FullNext(w, Turn(d, now)), turns);
            && (GoneEverywhere(r, g) <==> NoneLater(w, d, g, s))
            && (GoneEverywhere(r, g) ==> InLog(r.log, g) && Latest(r.log, g) == Dead(s))
  {
    var w1 := FullNext(w, Turn(d, now));
    var at := AfterDeletion(w, d, g, now, s, b);
    if NoneLater(w, d, g, s) {
      forall k | 0 <= k < |w1.devs| ensures Beaten(w1.devs[k], g, s, at) {
        assert k != d ==> w1.devs[k] == w.devs[k];
      }
      PrevailsAfterRound(w1, g, s, b, at, turns);
    } else {
      var k :| 0 <= k < |w.devs| && k != d && Present(w.devs[k], g) && w.devs[k].file[g].mod > s;
      SurvivesRound(w1, g, s, b, at, k, turns);
    }
  }

  // ---------------------------------------------------------------- when the devices agree

  /** What each device has of the group is recorded as synced. */
  ghost predicate Settled(dev: Dev, g: Uuid) {
    Present(dev, g) ==> !Due(dev, g)
  }

  ghost predicate Synced(w: World, g: Uuid) {
    forall k | 0 <= k < |w.devs| :: Settled(w.devs[k], g)
  }

  /** Server and devices agree whether the group exists. */
  ghost predicate AgreeOn(w: World, g: Uuid) {
    InLog(w.log, g) && forall k | 0 <= k < |w.devs| :: Present(w.devs[k], g) <==> Latest(w.log, g).Live?
  }

  /** The tombstone stays the server's newest version: nobody has anything else to say about the group. */
  ghost predicate Silenced(w: World, g: Uuid, s: Time, b: Time, at: nat) {
    Marked(w, g, s, b, at) && Synced(w, g) && Latest(w.log, g) == Dead(s)
  }

  lemma SilencedDevice(dev: Dev, log: seq<Version>, d: Device, answers: nat, now: Time, g: Uuid, s: Time, b: Time, at: nat)
    requires Times(s, b) && Told(log, g, s, b, at) && Reached(dev, log, g, s, b, at) && Cycles(dev, log, answers, now)
    requires Settled(dev, g) && Latest(log, g) == Dead(s)
    ensures Settled(SyncedDev(dev, log, answers, true, now), g)
    ensures Told(LogAfter(dev, log, d, answers, now), g, s, b, at)
    ensures Latest(LogAfter(dev, log, d, answers, now), g) == Dead(s)
  {
    PullInforms(dev, log, g, s, b, at);
    ReachedTurn(dev, log, d, answers, now, g, s, b, at);
  }

  lemma SilencedTurn(w: World, t: Turn, g: Uuid, s: Time, b: Time, at: nat)
    requires Tidy(w) && Has(w, t.device) && Silenced(w, g, s, b, at)
    ensures Silenced(FullNext(w, t), g, s, b, at)
  {
    var e, w' := FullSync(w, t), FullNext(w, t);
    NextSync(w, e);
    MarkedTurn(w, t, g, s, b, at);
    assert Reached(w.devs[t.device], w.log, g, s, b, at) && Settled(w.devs[t.device], g);
    SilencedDevice(w.devs[t.device], w.log, t.device, e.answers, t.now, g, s, b, at);
    forall k | 0 <= k < |w'.devs| ensures Settled(w'.devs[k], g) {
      assert Settled(w.devs[k], g);
    }
  }

  lemma SilencedRound(w: World, g: Uuid, s: Time, b: Time, at: nat, turns: seq<Turn>)
    requires Tidy(w) && Silenced(w, g, s, b, at) && AllIn(w, turns)
    ensures Silenced(Round(w, turns), g, s, b, at)
  {
    var inv := (v: World) => Silenced(v, g, s, b, at);
    var bit := (v: World, x: Device) => true;
    forall v, t: Turn | Tidy(v) && Has(v, t.device) && inv(v)
      ensures inv(FullNext(v, t)) && bit(FullNext(v, t), t.device)
      ensures forall x | bit(v, x) :: bit(FullNext(v, t), x)
    {
      SilencedTurn(v, t, g, s, b, at);
    }
    RoundCarries(w, turns, inv, bit, 0);
  }

  lemma AgreeMeansGone(w: World, g: Uuid)
    requires InLog(w.log, g) && Latest(w.log, g).Dead?
    ensures AgreeOn(w, g) <==> GoneEverywhere(w, g)
  {}

  lemma StillSynced(w: World, w1: World, d: Device, g: Uuid)
    requires |w1.devs| == |w.devs| && Has(w, d) && Lacks(w1.devs[d], g)
    requires forall k | 0 <= k < |w.devs| && k != d :: w1.devs[k] == w.devs[k] && Settled(w.devs[k], g)
    ensures Synced(w1, g)
  {}

  /**
   When every device that still has the group has synced it, server and devices agree after a round if and only if
   the time of death is no earlier than the last modification. When it is earlier, it stays the server's last word
   while the devices keep the group.
   */
  lemma DevicesAgreeIff(w: World, d: Device, g: Uuid, now: Time, s: Time, b: Time, turns: seq<Turn>)
    requires Deleting(w, d, g, s, b) && s == Death(w.devs[d], w.log, g, now) && EveryoneIn(w, turns)
    requires forall k | 0 <= k < |w.devs| && k != d :: Settled(w.devs[k], g)
    ensures var r := Round(FullNext(w, Turn(d, now)), turns);
            && InLog(r.log, g) && Latest(r.log, g) == Dead(s)
            && (AgreeOn(r, g) <==> NoneLater(w, d, g, s))
  {
    var w1 := FullNext(w, Turn(d, now));
    var at := AfterDeletion(w, d, g, now, s, b);
    StillSynced(w, w1, d, g);
    SilencedRound(w1, g, s, b, at, turns);
    AgreeMeansGone(Round(w1, turns), g);
    DeletionPrevailsIff(w, d, g, now, s, b, turns);
  }

  /** Too early, it is the server's last word while a device keeps the group in every round. */
  lemma EarlyTombstoneDivides(w: World, d: Device, k: Device, g: Uuid, now: Time, s: Time, b: Time, turns: seq<Turn>)
    requires Deleting(w, d, g, s, b) && s == Death(w.devs[d], w.log, g, now) && EveryoneIn(w, turns)
    requires forall k | 0 <= k < |w.devs| && k != d :: Settled(w.devs[k], g)
    requires k != d && Survives(w, k, g, s)
    ensures var r := Round(FullNext(w, Turn(d, now)), turns);
            && InLog(r.log, g) && Latest(r.log, g) == Dead(s) && Survives(r, k, g, s)
  {
    DevicesAgreeIff(w, d, g, now, s, b, turns);
    var at := AfterDeletion(w, d, g, now, s, b);
    SurvivesRound(FullNext(w, Turn(d, now)), g, s, b, at, k, turns);
  }

  // ---------------------------------------------------------------- witnesses

  // A group as of a time.
  function Bank(t: Time): Obj {
    Live(t, Header("Bank", "", 48, 0), t, None)
  }

  /** A device that knows one group, has seen all of the log, and had synced the group as of `synced`. */
  ghost predicate HadSynced(dev: Dev, log: seq<Version>, g: Uuid, synced: Time) {
    && dev.tracked.lastSeq == |log| && dev.tracked.known == [g]
    && g in dev.tracked.states && dev.tracked.states[g] == At(synced)
  }

  ghost predicate HasBank(dev: Dev, g: Uuid, t: Time) {
    g in dev.file && dev.file[g] == Bank(t)
  }

  ghost predicate HasDeleted(dev: Dev, g: Uuid, t: Time) {
    g in dev.file && dev.file[g] == Dead(t)
  }

  /** What a pull leaves of a group of which nothing arrives. */
  lemma NothingArrives(dev: Dev, log: seq<Version>, g: Uuid)
    requires 0 <= dev.tracked.lastSeq <= |log| && !Arrives(dev, log, g)
    ensures var p := PulledDev(dev, log);
            && (g in p.tracked.known <==> g in dev.tracked.known)
            && (g in p.file <==> g in dev.file) && (g in dev.file ==> p.file[g] == dev.file[g])
            && (Due(p, g) <==> Due(dev, g))
  {
    PulledGroup(dev, log, g);
    PulledKnown(dev, log, g);
    PullReadsSeconds(dev, log, true);
  }

  /** A known group that is gone, of which nothing arrives, is pronounced dead, if few groups are known. */
  lemma FewKnownDelete(dev: Dev, log: seq<Version>, g: Uuid, now: Time)
    requires 0 <= dev.tracked.lastSeq <= |log| && !Arrives(dev, log, g)
    requires Lacks(dev, g) && g in dev.tracked.known && |dev.tracked.known| <= 5
    ensures Deletes(dev, log, g) && Death(dev, log, g, now) == DeathOf(dev, g, now)
  {
    NothingArrives(dev, log, g);
    FewKnownPass(dev, log);
  }

  /** The guard never refuses when at most five groups were known. */
  lemma FewKnownPass(dev: Dev, log: seq<Version>)
    requires dev.tracked.lastSeq >= 0 && |dev.tracked.known| <= 5
    ensures !Refused(PulledDev(dev, log).tracked.known, ExportOf(PulledDev(dev, log)))
  {
    NoMoreKnown(dev, log);
    FewPass(PulledDev(dev, log).tracked.known, ExportOf(PulledDev(dev, log)));
  }

  lemma NoMoreKnown(dev: Dev, log: seq<Version>)
    requires dev.tracked.lastSeq >= 0
    ensures |PulledDev(dev, log).tracked.known| <= |dev.tracked.known|
  {
    PullOk(dev, log);
    PullTracks(dev.tracked, PullEnvOf(dev.file, log, dev.tracked.lastSeq, true));
  }

  lemma FewPass(known: seq<Uuid>, x: Export)
    requires |known| <= 5
    ensures !Refused(known, x)
  {}

  lemma Keeper(dev: Dev, log: seq<Version>, g: Uuid, s: Time, changed: Time, synced: Time)
    requires HadSynced(dev, log, g, synced) && HasBank(dev, g, changed)
    requires Whole(s) && Whole(changed) && s < changed
    ensures Tame(dev, log, g, s) && Times(s, s + SECOND) && Apart(dev, g, s, s + SECOND)
    ensures Present(dev, g) && dev.file[g].mod == changed && (changed == synced ==> Settled(dev, g))
  {
    FloorIsLastSecond(s, s);
    WholeTimesAreApart(dev, log, g, s);
  }

  /** Two devices: one pronounces the group dead, the other has a later modification. */
  lemma TwoDevices(w: World, deleter: Dev, keeper: Dev, g: Uuid, s: Time)
    requires Tidy(w) && w.devs == [deleter, keeper] && Deletes(deleter, w.log, g) && Times(s, s + SECOND)
    requires Tame(keeper, w.log, g, s) && Apart(keeper, g, s, s + SECOND) && Present(keeper, g) && keeper.file[g].mod > s
    ensures Deleting(w, 0, g, s, s + SECOND) && Survives(w, 1, g, s)
  {
    assert w.devs[0] == deleter && w.devs[1] == keeper;
  }

  /** A device that has seen all of the log and lost the one group it knew pronounces it dead. */
  lemma LoserDeletes(dev: Dev, log: seq<Version>, g: Uuid, synced: Time, now: Time)
    requires HadSynced(dev, log, g, synced) && Lacks(dev, g)
    ensures Deletes(dev, log, g) && Death(dev, log, g, now) == DeathOf(dev, g, now)
  {
    FewKnownDelete(dev, log, g, now);
  }

  /**
   The witness: two devices that had synced a group at one second; one has lost it, and pushes with a clock that is
   still before that second.
   */
  lemma EarlyTombstoneIsReal(w: World, deleter: Dev, keeper: Dev, g: Uuid, synced: Time, now: Time)
    requires Tidy(w) && w.devs == [deleter, keeper] && Whole(synced) && Whole(now) && now < synced
    requires HadSynced(deleter, w.log, g, synced) && g !in deleter.file
    requires HadSynced(keeper, w.log, g, synced) && HasBank(keeper, g, synced)
    ensures Deleting(w, 0, g, now, now + SECOND) && Death(deleter, w.log, g, now) == now
    ensures Settled(keeper, g) && Survives(w, 1, g, now)
  {
    FloorIsLastSecond(now, now);
    LoserDeletes(deleter, w.log, g, synced, now);
    Keeper(keeper, w.log, g, now, synced, synced);
    TwoDevices(w, deleter, keeper, g, now);
  }

  /**
   Nor does a late push help a permanent deletion. The group was synced at one second (say 30), deleted for good at a
   later one (40), and modified elsewhere still later (50). The push after all that (60) sends a tombstone of its own
   time and then one of the deletion, and the group survives.
   */
  lemma PushTimeDoesNotDecide(w: World, deleter: Dev, keeper: Dev, g: Uuid, synced: Time, died: Time, changed: Time,
                              now: Time, turns: seq<Turn>)
    requires Tidy(w) && w.devs == [deleter, keeper] && EveryoneIn(w, turns)
    requires Whole(died) && Whole(changed) && Whole(now) && synced < died < changed < now
    requires HadSynced(deleter, w.log, g, synced) && HasDeleted(deleter, g, died)
    requires HadSynced(keeper, w.log, g, synced) && HasBank(keeper, g, changed)
    ensures NoneLater(w, 0, g, Floor(now))
    ensures !GoneEverywhere(Round(FullNext(w, Turn(0, now)), turns), g)
  {
    FloorIsLastSecond(now, now);
    FloorIsLastSecond(died, died);
    LatestByKeeper(w, deleter, keeper, g, Floor(now));
    LoserDeletes(deleter, w.log, g, synced, now);
    assert DeathOf(deleter, g, now) == died;
    Keeper(keeper, w.log, g, died, changed, synced);
    KeeperSurvives(w, deleter, keeper, g, died, now, turns);
  }

  lemma LatestByKeeper(w: World, deleter: Dev, keeper: Dev, g: Uuid, s: Time)
    requires w.devs == [deleter, keeper] && (Present(keeper, g) ==> keeper.file[g].mod <= s)
    ensures NoneLater(w, 0, g, s)
  {
    assert w.devs[1] == keeper;
  }

  lemma KeeperSurvives(w: World, deleter: Dev, keeper: Dev, g: Uuid, s: Time, now: Time, turns: seq<Turn>)
    requires Tidy(w) && w.devs == [deleter, keeper] && Deletes(deleter, w.log, g) && Times(s, s + SECOND)
    requires Tame(keeper, w.log, g, s) && Apart(keeper, g, s, s + SECOND) && Present(keeper, g) && keeper.file[g].mod > s
    requires s == Death(deleter, w.log, g, now) && EveryoneIn(w, turns)
    ensures !GoneEverywhere(Round(FullNext(w, Turn(0, now)), turns), g)
  {
    TwoDevices(w, deleter, keeper, g, s);
    assert w.devs[0] == deleter;
    OtherSurvives(w, deleter, g, s, s + SECOND, now, turns);
  }

  lemma OtherSurvives(w: World, deleter: Dev, g: Uuid, s: Time, b: Time, now: Time, turns: seq<Turn>)
    requires Deleting(w, 0, g, s, b) && w.devs[0] == deleter && s == Death(deleter, w.log, g, now)
    requires EveryoneIn(w, turns) && Survives(w, 1, g, s)
    ensures !GoneEverywhere(Round(FullNext(w, Turn(0, now)), turns), g)
  {
    DeletionPrevailsIff(w, 0, g, now, s, b, turns);
  }
}
