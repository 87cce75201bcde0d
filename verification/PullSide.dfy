/**
 The pull half of a sync (client/cmd/keepass-deltasync/syncop.go, `pullChanges`): record and decode
 what the server has, hand it to the merge, and prune tombstoned groups from the known set.
 */
module PullSide {
  import opened Basics
  import opened Tracking
  import opened GroupTree

  // Whether a change decodes. A bad envelope (base64, timestamp) is met before its time is recorded,
  // a bad payload (decryption, blob format) after; a tombstone's payload is never opened.
  datatype Readability = Fine | BadEnvelope | BadPayload

  // A fragment has the entry's fields and history; its own times are listed apart.
  datatype Content = EntryContent(parent: Option<Uuid>, moved: Time, fragment: string) | GroupContent(group: Group)

  datatype Change = Change(uuid: Uuid, modifiedAt: Time, deleted: bool, content: Content, readable: Readability)

  datatype Response = Response(currentSeq: int, changes: seq<Change>)

  // The environment of one pull: the server's answer, the local group tree, and whether every later
  // step up to the keepassxc-cli merge succeeds.
  datatype PullEnv = PullEnv(response: Option<Response>, local: seq<Group>, mergeOk: bool)

  datatype StagedEntry = StagedEntry(uuid: Uuid, modifiedAt: Time, parent: Option<Uuid>, moved: Time, fragment: string)

  datatype Staged = Staged(entries: seq<StagedEntry>, groups: seq<Group>, deletions: seq<Deletion>)

  datatype Reading = Reading(states: States, staged: Staged, ok: bool)

  datatype PullResult = PullResult(tracked: Tracked, newSeq: int, merged: nat, deleted: nat, staged: Staged, ok: bool)

  const NOTHING := Staged([], [], [])

  function Stage(s: Staged, c: Change): Staged {
    if c.deleted then s.(deletions := s.deletions + [Deletion(c.uuid, c.modifiedAt)])
    else match c.content
      case GroupContent(g) => s.(groups := s.groups + [g])
      case EntryContent(p, m, f) => s.(entries := s.entries + [StagedEntry(c.uuid, c.modifiedAt, p, m, f)])
  }

  function ReadOne(r: Reading, c: Change): Reading {
    if !r.ok then r
    else if c.readable.BadEnvelope? then r.(ok := false)
    else
      var states := RecordIfNewer(r.states, c.uuid, Format(c.modifiedAt));
      if !c.deleted && c.readable.BadPayload? then Reading(states, r.staged, false)
      else Reading(states, Stage(r.staged, c), true)
  }

  function ReadAll(r: Reading, changes: seq<Change>): Reading {
    if changes == [] then r else var n := |changes| - 1; ReadOne(ReadAll(r, changes[..n]), changes[n])
  }

  function Pull(t: Tracked, env: PullEnv): PullResult {
    if env.response.None? then PullResult(t, 0, 0, 0, NOTHING, false) else
    var resp := env.response.value;
    if resp.changes == [] then PullResult(t, resp.currentSeq, 0, 0, NOTHING, true) else
    var r := ReadAll(Reading(t.states, NOTHING, true), resp.changes);
    if !r.ok || !env.mergeOk then PullResult(t.(states := r.states), 0, 0, 0, NOTHING, false) else
    var staged := r.staged.(groups := MergedTree(env.local, r.staged.groups, r.staged.deletions));
    PullResult(t.(states := r.states, known := Missing(t.known, DeletedUuids(staged.deletions))),
               resp.currentSeq, |staged.entries|, |staged.deletions|, staged, true)
  }

  lemma {:induction false} ReadStaysFailed(r: Reading, changes: seq<Change>, i: nat)
    requires i <= |changes| && !ReadAll(r, changes[..i]).ok
    ensures ReadAll(r, changes) == ReadAll(r, changes[..i])
    decreases |changes| - i
  {
    if i < |changes| {
      assert changes[..i + 1][..i] == changes[..i];
      ReadStaysFailed(r, changes, i + 1);
    } else {
      assert changes[..i] == changes;
    }
  }

  method PullChanges(db: Database, env: PullEnv)
    returns (newSeq: int, merged: nat, deleted: nat, staged: Staged, ok: bool)
    modifies db`EntryStates, db`KnownGroups
    ensures PullResult(db.View(), newSeq, merged, deleted, staged, ok) == Pull(old(db.View()), env)
  {
    newSeq, merged, deleted, staged, ok := 0, 0, 0, NOTHING, false;
    if env.response.None? {
      return;
    }
    var changes := env.response.value.changes;
    if |changes| == 0 {
      newSeq, ok := env.response.value.currentSeq, true;
      return;
    }
    var got := NOTHING;
    ghost var r0 := Reading(db.EntryStates, NOTHING, true);
    for i := 0 to |changes|
      invariant db.View() == old(db.View()).(states := db.EntryStates)
      invariant Reading(db.EntryStates, got, true) == ReadAll(r0, changes[..i])
    {
      var c := changes[i];
      assert changes[..i + 1][..i] == changes[..i];
      if c.readable.BadEnvelope? {
        ReadStaysFailed(r0, changes, i + 1);
        return;
      }
      db.RecordEntryStateIfNewer(c.uuid, Format(c.modifiedAt));
      if c.deleted {
        got := got.(deletions := got.deletions + [Deletion(c.uuid, c.modifiedAt)]);
        continue;
      }
      if c.readable.BadPayload? {
        ReadStaysFailed(r0, changes, i + 1);
        return;
      }
      match c.content {
        case GroupContent(g) =>
          got := got.(groups := got.groups + [g]);
        case EntryContent(p, m, f) =>
          got := got.(entries := got.entries + [StagedEntry(c.uuid, c.modifiedAt, p, m, f)]);
      }
    }
    assert changes[..|changes|] == changes;
    if !env.mergeOk {
      return;
    }
    var groups := MergeGroupTree(env.local, got.groups, got.deletions);
    staged := got.(groups := groups);
    db.KnownGroups := PruneKnownGroups(db.KnownGroups, got.deletions);
    newSeq, merged, deleted, ok := env.response.value.currentSeq, |got.entries|, |got.deletions|, true;
  }

  // ---------------------------------------------------------------- what a pull does

  /** The server reported `u` as modified no earlier than second `t`. */
  ghost predicate Reported(changes: seq<Change>, u: Uuid, t: Time) {
    exists c :: c in changes && c.uuid == u && Floor(c.modifiedAt) >= t
  }

  lemma {:induction false} ReadRaises(r: Reading, changes: seq<Change>)
    ensures var q := ReadAll(r, changes);
            && NotBelow(r.states, q.states)
            && (WholeStates(r.states) ==> WholeStates(q.states))
            && (q.ok ==> r.ok)
            && (q.ok ==> forall u, t :: AtLeast(q.states, u, t) <==>
                                        AtLeast(r.states, u, t) || Reported(changes, u, t))
  {
    if changes != [] {
      var n := |changes| - 1;
      ReadRaises(r, changes[..n]);
      var p, q, c := ReadAll(r, changes[..n]), ReadAll(r, changes), changes[n];
      RecordIfNewerRaises(p.states, c.uuid, c.modifiedAt);
      assert changes == changes[..n] + [c];
      assert forall d :: d in changes <==> d in changes[..n] || d == c;
      if q.ok {
        forall u, t ensures AtLeast(q.states, u, t) <==> AtLeast(r.states, u, t) || Reported(changes, u, t) {
          assert Reported(changes, u, t) <==>
                 Reported(changes[..n], u, t) || (c.uuid == u && Floor(c.modifiedAt) >= t);
        }
      }
    }
  }

  /**
   What any pull does to the tracking state. Recorded times never move back and known groups are never
   invented, even when it fails; a failed one leaves LastSeq and the known groups alone; a successful one
   knows exactly what was known or reported, and forgets exactly the tombstoned groups.
   */
  lemma PullTracks(t: Tracked, env: PullEnv)
    ensures var r := Pull(t, env);
            && NotBelow(t.states, r.tracked.states)
            && (WholeStates(t.states) ==> WholeStates(r.tracked.states))
            && r.tracked.lastSeq == t.lastSeq
            && (StrictlyIncreasing(t.known) ==> StrictlyIncreasing(r.tracked.known))
            && (forall u | u in r.tracked.known :: u in t.known)
            && (!r.ok ==> r.tracked.known == t.known && r.staged == NOTHING && r.newSeq == r.merged == r.deleted == 0)
            && (r.ok ==> env.response.Some? && r.newSeq == env.response.value.currentSeq)
            && (r.ok ==> forall u, s :: AtLeast(r.tracked.states, u, s) <==>
                          AtLeast(t.states, u, s) || Reported(env.response.value.changes, u, s))
            && (r.ok ==> r.tracked.known == Missing(t.known, DeletedUuids(r.staged.deletions)))
  {
    if env.response.Some? {
      ReadRaises(Reading(t.states, NOTHING, true), env.response.value.changes);
      MissingNone(t.known, {});
      assert DeletedUuids([]) == {};
    }
  }

  /** The change can be taken in: an envelope that parses, and a payload that decrypts, unless it is a tombstone. */
  predicate Readable(c: Change) {
    c.readable.Fine? || (c.deleted && c.readable.BadPayload?)
  }

  /** The first change that cannot be read stops the reading; its time is recorded if its envelope was good. */
  lemma {:induction false} ReadOkIff(r: Reading, changes: seq<Change>)
    requires r.ok
    ensures ReadAll(r, changes).ok <==> forall c | c in changes :: Readable(c)
  {
    if changes != [] {
      var n := |changes| - 1;
      assert changes == changes[..n] + [changes[n]];
      ReadOkIff(r, changes[..n]);
      assert ReadAll(r, changes) == ReadOne(ReadAll(r, changes[..n]), changes[n]);
      assert changes[n] in changes && forall c | c in changes[..n] :: c in changes;
      assert (forall c | c in changes :: Readable(c)) <==> (forall c | c in changes[..n] :: Readable(c)) && Readable(changes[n]);
    }
  }

  /** When a pull succeeds: the server answers, everything it sent can be read, and, if that is anything, the merge works. */
  lemma PullOkIff(t: Tracked, env: PullEnv)
    ensures Pull(t, env).ok
       <==> env.response.Some?
            && (env.response.value.changes == []
                || (env.mergeOk && forall c | c in env.response.value.changes :: Readable(c)))
  {
    if env.response.Some? {
      ReadOkIff(Reading(t.states, NOTHING, true), env.response.value.changes);
    }
  }

  /** A pull that cannot read one change has recorded the times of those before it, and its own if its envelope was good. */
  lemma FailedPullRecords(t: Tracked, env: PullEnv, i: nat)
    requires env.response.Some? && i < |env.response.value.changes|
    requires forall c | c in env.response.value.changes[..i] :: Readable(c)
    requires !Readable(env.response.value.changes[i])
    ensures var r, cs := Pull(t, env), env.response.value.changes;
            var read := if cs[i].readable.BadEnvelope? then cs[..i] else cs[..i + 1];
            !r.ok && forall u, s :: AtLeast(r.tracked.states, u, s) <==> AtLeast(t.states, u, s) || Reported(read, u, s)
  {
    var cs := env.response.value.changes;
    var r0 := Reading(t.states, NOTHING, true);
    assert cs[..i + 1][..i] == cs[..i] && cs[..i + 1] == cs[..i] + [cs[i]];
    ReadOkIff(r0, cs[..i]);
    ReadRaises(r0, cs[..i]);
    var p, q := ReadAll(r0, cs[..i]), ReadAll(r0, cs[..i + 1]);
    assert q == ReadOne(p, cs[i]);
    ReadStaysFailed(r0, cs, i + 1);
    if !cs[i].readable.BadEnvelope? {
      RecordIfNewerRaises(p.states, cs[i].uuid, cs[i].modifiedAt);
      forall u, s ensures Reported(cs[..i + 1], u, s) <==> Reported(cs[..i], u, s) || (cs[i].uuid == u && Floor(cs[i].modifiedAt) >= s) {
        assert forall c :: c in cs[..i + 1] <==> c in cs[..i] || c == cs[i];
      }
    }
  }

  lemma {:induction false} ReadStages(r: Reading, changes: seq<Change>)
    requires ReadAll(r, changes).ok
    ensures var s := ReadAll(r, changes).staged;
            && r.ok
            && |s.entries| + |s.groups| + |s.deletions|
               == |r.staged.entries| + |r.staged.groups| + |r.staged.deletions| + |changes|
            && r.staged.entries <= s.entries && r.staged.groups <= s.groups && r.staged.deletions <= s.deletions
    ensures forall c | c in changes ::
              var s := ReadAll(r, changes).staged;
              if c.deleted then Deletion(c.uuid, c.modifiedAt) in s.deletions
              else match c.content
                case GroupContent(g) => g in s.groups
                case EntryContent(p, m, f) => StagedEntry(c.uuid, c.modifiedAt, p, m, f) in s.entries
  {
    if changes != [] {
      var n := |changes| - 1;
      assert ReadAll(r, changes) == ReadOne(ReadAll(r, changes[..n]), changes[n]);
      ReadStages(r, changes[..n]);
      assert changes == changes[..n] + [changes[n]];
    }
  }

  lemma {:induction false} StagedFrom(r: Reading, changes: seq<Change>)
    requires r.staged == NOTHING && ReadAll(r, changes).ok
    ensures var s := ReadAll(r, changes).staged;
            && (forall g | g in s.groups :: exists c :: c in changes && !c.deleted && c.content == GroupContent(g))
            && (forall d | d in s.deletions ::
                  exists c :: c in changes && c.deleted && d == Deletion(c.uuid, c.modifiedAt))
            && (forall e | e in s.entries :: exists c :: c in changes && StagesEntry(c, e))
  {
    if changes != [] {
      var n := |changes| - 1;
      assert ReadAll(r, changes) == ReadOne(ReadAll(r, changes[..n]), changes[n]);
      StagedFrom(r, changes[..n]);
      var before := ReadAll(r, changes[..n]);
      assert before.ok && ReadAll(r, changes).staged == Stage(before.staged, changes[n]);
      assert changes == changes[..n] + [changes[n]];
      assert changes[n] in changes && forall c | c in changes[..n] :: c in changes;
    }
  }

  predicate StagesEntry(c: Change, e: StagedEntry) {
    && !c.deleted && c.content.EntryContent?
    && e == StagedEntry(c.uuid, c.modifiedAt, c.content.parent, c.content.moved, c.content.fragment)
  }

  /**
   The staged entries and deletions are exactly those of the changes; the staged groups are exactly the pulled ones,
   with the local search flag if they carry none, and the local ones not pulled, all but the tombstoned. (Without
   changes there is no merge.)
   */
  ghost predicate StagesAll(s: Staged, cs: seq<Change>, local: seq<Group>) {
    && (forall d :: d in s.deletions <==> exists c :: c in cs && c.deleted && d == Deletion(c.uuid, c.modifiedAt))
    && (forall e :: e in s.entries <==> exists c :: c in cs && StagesEntry(c, e))
    && (cs == [] ==> s == NOTHING)
    && (cs != [] ==> forall h :: h in s.groups <==>
          h.uuid !in DeletedUuids(s.deletions)
          && ((exists c :: c in cs && StagesGroup(c, h, local))
              || (h in local && !exists c :: c in cs && !c.deleted && c.content.GroupContent?
                                             && c.content.group.uuid == h.uuid)))
  }

  predicate StagesGroup(c: Change, h: Group, local: seq<Group>) {
    !c.deleted && c.content.GroupContent? && h == Inherit(c.content.group, ByUuid(local))
  }

  /** Nothing pulled is lost or invented on the way to the merge. */
  lemma PullStagesEverything(t: Tracked, env: PullEnv)
    requires Pull(t, env).ok
    ensures var r, cs := Pull(t, env), env.response.value.changes;
            && StagesAll(r.staged, cs, env.local)
            && r.merged == |r.staged.entries| && r.deleted == |r.staged.deletions| && r.merged + r.deleted <= |cs|
            && (r.merged + r.deleted == |cs| <==> forall c | c in cs :: c.deleted || c.content.EntryContent?)
  {
    var cs := env.response.value.changes;
    if cs != [] {
      var r0 := Reading(t.states, NOTHING, true);
      ReadStages(r0, cs);
      StagedFrom(r0, cs);
      NoGroupsIff(r0, cs);
      forall h: Group {
        StagedGroupIs(env.local, cs, ReadAll(r0, cs).staged, h);
      }
    }
  }

  lemma StagedGroupIs(local: seq<Group>, cs: seq<Change>, s: Staged, h: Group)
    requires forall g | g in s.groups :: exists c :: c in cs && !c.deleted && c.content == GroupContent(g)
    requires forall c | c in cs && !c.deleted && c.content.GroupContent? :: c.content.group in s.groups
    ensures h in MergedTree(local, s.groups, s.deletions) <==>
              h.uuid !in DeletedUuids(s.deletions)
              && ((exists c :: c in cs && StagesGroup(c, h, local))
                  || (h in local && !exists c :: c in cs && !c.deleted && c.content.GroupContent?
                                                 && c.content.group.uuid == h.uuid))
  {
    MergedTreeIs(local, s.groups, s.deletions, h);
    if g :| g in s.groups && h == Inherit(g, ByUuid(local)) {
      var c :| c in cs && !c.deleted && c.content == GroupContent(g);
      assert c.content.group == g;
    }
    if h.uuid in GroupUuids(s.groups) {
      var g :| g in s.groups && g.uuid == h.uuid;
      var c :| c in cs && !c.deleted && c.content == GroupContent(g);
      assert c.content.group == g;
    }
  }

  lemma {:induction false} NoGroupsIff(r: Reading, changes: seq<Change>)
    requires ReadAll(r, changes).ok && r.staged.groups == []
    ensures ReadAll(r, changes).staged.groups == [] <==> forall c | c in changes :: c.deleted || c.content.EntryContent?
  {
    if changes != [] {
      var n := |changes| - 1;
      assert ReadAll(r, changes) == ReadOne(ReadAll(r, changes[..n]), changes[n]);
      NoGroupsIff(r, changes[..n]);
      assert changes == changes[..n] + [changes[n]];
    }
  }
}
