/**
 Group structure around a sync (client/cmd/keepass-deltasync/syncop.go): the tree handed to the
 staging builder, the structural diff behind group deletion, and the guard on it.
 */
module GroupTree {
  import opened Basics
  import opened Tracking

  const GROUP_DELETE_FLOOR: int := 5
  const GROUP_DELETE_PERCENT: int := 25

  // A parent of None is the Root sentinel; searching None means "inherit from the parent".
  datatype Group = Group(
    uuid: Uuid, parent: Option<Uuid>, name: string, notes: string, icon: int,
    created: Time, modifiedAt: Time, locationChanged: Time, searching: Option<bool>)

  datatype Deletion = Deletion(uuid: Uuid, deletedAt: Time)

  function GroupUuids(groups: seq<Group>): set<Uuid> {
    set g | g in groups :: g.uuid
  }

  function DeletedUuids(deletions: seq<Deletion>): set<Uuid> {
    set d | d in deletions :: d.uuid
  }

  predicate DistinctGroups(groups: seq<Group>) {
    forall i, j :: 0 <= i < j < |groups| ==> groups[i].uuid != groups[j].uuid
  }

  // ---------------------------------------------------------------- merging the tree

  function ByUuid(groups: seq<Group>): map<Uuid, Group> {
    if groups == [] then map[]
    else var n := |groups| - 1; ByUuid(groups[..n])[groups[n].uuid := groups[n]]
  }

  function Inherit(g: Group, local: map<Uuid, Group>): Group {
    if g.uuid in local && g.searching.None? then g.(searching := local[g.uuid].searching) else g
  }

  function DeltaPart(delta: seq<Group>, local: map<Uuid, Group>, gone: set<Uuid>): seq<Group> {
    if delta == [] then []
    else
      var n := |delta| - 1;
      DeltaPart(delta[..n], local, gone) + (if delta[n].uuid in gone then [] else [Inherit(delta[n], local)])
  }

  function LocalPart(local: seq<Group>, hidden: set<Uuid>): seq<Group> {
    if local == [] then []
    else
      var n := |local| - 1;
      LocalPart(local[..n], hidden) + (if local[n].uuid in hidden then [] else [local[n]])
  }

  function MergedTree(local: seq<Group>, delta: seq<Group>, deletions: seq<Deletion>): seq<Group> {
    var gone := DeletedUuids(deletions);
    var d := DeltaPart(delta, ByUuid(local), gone);
    d + LocalPart(local, GroupUuids(d) + gone)
  }

  method MergeGroupTree(local: seq<Group>, delta: seq<Group>, deletions: seq<Deletion>) returns (out: seq<Group>)
    ensures out == MergedTree(local, delta, deletions)
  {
    var tombstoned: set<Uuid> := {};
    for i := 0 to |deletions|
      invariant tombstoned == DeletedUuids(deletions[..i])
    {
      assert deletions[..i + 1] == deletions[..i] + [deletions[i]];
      tombstoned := tombstoned + {deletions[i].uuid};
    }
    assert deletions[..|deletions|] == deletions;
    var localByUuid: map<Uuid, Group> := map[];
    for i := 0 to |local|
      invariant localByUuid == ByUuid(local[..i])
    {
      assert local[..i + 1][..i] == local[..i];
      localByUuid := localByUuid[local[i].uuid := local[i]];
    }
    assert local[..|local|] == local;

    var seen;
    out, seen := TakeDelta(delta, localByUuid, tombstoned);
    ghost var fromDelta := out;
    for i := 0 to |local|
      invariant out == fromDelta + LocalPart(local[..i], seen + tombstoned)
    {
      assert local[..i + 1][..i] == local[..i];
      if local[i].uuid in seen || local[i].uuid in tombstoned {
        continue;
      }
      out := out + [local[i]];
    }
  }

  /** The second loop: the pulled groups, and which they are. */
  method TakeDelta(delta: seq<Group>, localByUuid: map<Uuid, Group>, tombstoned: set<Uuid>)
    returns (out: seq<Group>, seen: set<Uuid>)
    ensures out == DeltaPart(delta, localByUuid, tombstoned) && seen == GroupUuids(out)
  {
    out, seen := [], {};
    for i := 0 to |delta|
      invariant out == DeltaPart(delta[..i], localByUuid, tombstoned)
      invariant seen == GroupUuids(out)
    {
      assert delta[..i + 1][..i] == delta[..i];
      var g := delta[i];
      if g.uuid in tombstoned {
        continue;
      }
      if g.uuid in localByUuid && g.searching.None? {
        g := g.(searching := localByUuid[g.uuid].searching);
      }
      GroupUuidsAppend(out, g);
      seen := seen + {g.uuid};
      out := out + [g];
    }
    assert delta[..|delta|] == delta;
  }

  lemma {:induction false} ByUuidFinds(groups: seq<Group>)
    ensures ByUuid(groups).Keys == GroupUuids(groups)
    ensures forall u | u in ByUuid(groups) :: ByUuid(groups)[u].uuid == u && ByUuid(groups)[u] in groups
    ensures DistinctGroups(groups) ==> forall g | g in groups :: ByUuid(groups)[g.uuid] == g
  {
    if groups != [] {
      var n := |groups| - 1;
      ByUuidFinds(groups[..n]);
      assert groups == groups[..n] + [groups[n]];
    }
  }

  lemma GroupUuidsAppend(groups: seq<Group>, g: Group)
    ensures GroupUuids(groups + [g]) == GroupUuids(groups) + {g.uuid}
  {
    assert forall h :: h in groups + [g] <==> h in groups || h == g;
  }

  lemma {:induction false} DeltaPartUuids(delta: seq<Group>, local: map<Uuid, Group>, gone: set<Uuid>)
    ensures GroupUuids(DeltaPart(delta, local, gone)) == GroupUuids(delta) - gone
  {
    if delta != [] {
      var n := |delta| - 1;
      DeltaPartUuids(delta[..n], local, gone);
      assert delta == delta[..n] + [delta[n]];
      GroupUuidsAppend(delta[..n], delta[n]);
      GroupUuidsAppend(DeltaPart(delta[..n], local, gone), Inherit(delta[n], local));
      if delta[n].uuid in gone {
        assert DeltaPart(delta, local, gone) == DeltaPart(delta[..n], local, gone);
      }
    }
  }

  lemma {:induction false} DeltaPartHolds(delta: seq<Group>, local: map<Uuid, Group>, gone: set<Uuid>)
    ensures forall h | h in delta && h.uuid !in gone :: Inherit(h, local) in DeltaPart(delta, local, gone)
  {
    if delta != [] {
      var n := |delta| - 1;
      DeltaPartHolds(delta[..n], local, gone);
      forall h | h in delta && h.uuid !in gone ensures Inherit(h, local) in DeltaPart(delta, local, gone) {
        assert h in delta[..n] || h == delta[n];
      }
    }
  }

  lemma {:induction false} DeltaPartDistinct(delta: seq<Group>, local: map<Uuid, Group>, gone: set<Uuid>)
    requires DistinctGroups(delta)
    ensures DistinctGroups(DeltaPart(delta, local, gone))
  {
    if delta != [] {
      var n := |delta| - 1;
      DeltaPartDistinct(delta[..n], local, gone);
      DeltaPartUuids(delta[..n], local, gone);
      var e := DeltaPart(delta[..n], local, gone);
      assert delta[n].uuid !in GroupUuids(delta[..n]);
      assert forall i | 0 <= i < |e| :: e[i].uuid in GroupUuids(e);
    }
  }

  lemma {:induction false} LocalPartHolds(local: seq<Group>, hidden: set<Uuid>)
    ensures forall g :: g in LocalPart(local, hidden) <==> g in local && g.uuid !in hidden
  {
    if local != [] {
      var n := |local| - 1;
      LocalPartHolds(local[..n], hidden);
      var l := LocalPart(local[..n], hidden);
      assert local == local[..n] + [local[n]];
      assert LocalPart(local, hidden) == if local[n].uuid in hidden then l else l + [local[n]];
    }
  }

  lemma {:induction false} LocalPartDistinct(local: seq<Group>, hidden: set<Uuid>)
    requires DistinctGroups(local)
    ensures DistinctGroups(LocalPart(local, hidden))
  {
    if local != [] {
      var n := |local| - 1;
      LocalPartDistinct(local[..n], hidden);
      LocalPartHolds(local[..n], hidden);
      var l := LocalPart(local[..n], hidden);
      assert LocalPart(local, hidden) == if local[n].uuid in hidden then l else l + [local[n]];
      forall i | 0 <= i < |l| ensures l[i].uuid != local[n].uuid {
        assert l[i] in l && l[i] in local[..n];
      }
    }
  }

  /** Which groups come out: exactly those of either input that are not tombstoned. */
  lemma MergedTreeUuids(local: seq<Group>, delta: seq<Group>, deletions: seq<Deletion>)
    ensures GroupUuids(MergedTree(local, delta, deletions))
         == GroupUuids(local) + GroupUuids(delta) - DeletedUuids(deletions)
  {
    var gone := DeletedUuids(deletions);
    var d := DeltaPart(delta, ByUuid(local), gone);
    DeltaPartUuids(delta, ByUuid(local), gone);
    LocalPartHolds(local, GroupUuids(d) + gone);
    var out := MergedTree(local, delta, deletions);
    forall u ensures u in GroupUuids(out) <==> u in GroupUuids(local) + GroupUuids(delta) - gone {
      if u in GroupUuids(local) && u !in gone && u !in GroupUuids(d) {
        var g :| g in local && g.uuid == u;
        assert g in out;
      }
      if u in GroupUuids(d) {
        var g :| g in d && g.uuid == u;
        assert g in out;
      }
    }
  }

  /**
   With distinct UUIDs on both sides: every surviving UUID comes out once, the pulled version wins and
   takes over the local search flag it does not carry itself, and untouched local groups are unchanged.
   */
  lemma MergedTreeWinners(local: seq<Group>, delta: seq<Group>, deletions: seq<Deletion>)
    requires DistinctGroups(local) && DistinctGroups(delta)
    ensures var out, gone := MergedTree(local, delta, deletions), DeletedUuids(deletions);
            && DistinctGroups(out)
            && (forall d, l | d in delta && l in local && d.uuid == l.uuid && d.uuid !in gone ::
                  d.(searching := if d.searching.None? then l.searching else d.searching) in out)
            && (forall d | d in delta && d.uuid !in GroupUuids(local) && d.uuid !in gone :: d in out)
            && (forall l | l in local && l.uuid !in GroupUuids(delta) && l.uuid !in gone :: l in out)
  {
    var gone := DeletedUuids(deletions);
    var byUuid := ByUuid(local);
    var d := DeltaPart(delta, byUuid, gone);
    ByUuidFinds(local);
    DeltaPartUuids(delta, byUuid, gone);
    DeltaPartHolds(delta, byUuid, gone);
    DeltaPartDistinct(delta, byUuid, gone);
    var l := LocalPart(local, GroupUuids(d) + gone);
    LocalPartHolds(local, GroupUuids(d) + gone);
    LocalPartDistinct(local, GroupUuids(d) + gone);
    var out := d + l;
    forall i, j | 0 <= i < j < |out| ensures out[i].uuid != out[j].uuid {
      if i < |d| <= j {
        assert out[i] in d && out[j] in l;
        assert out[i].uuid in GroupUuids(d);
      }
    }
    forall x, y | x in delta && y in local && x.uuid == y.uuid && x.uuid !in gone
      ensures x.(searching := if x.searching.None? then y.searching else x.searching) in out
    {
      assert byUuid[x.uuid] == y;
      assert Inherit(x, byUuid) in d;
    }
    forall x | x in delta && x.uuid !in GroupUuids(local) && x.uuid !in gone ensures x in out {
      assert Inherit(x, byUuid) in d;
    }
  }

  lemma {:induction false} DeltaPartFrom(delta: seq<Group>, local: map<Uuid, Group>, gone: set<Uuid>)
    ensures forall h | h in DeltaPart(delta, local, gone) ::
              exists g :: g in delta && g.uuid !in gone && h == Inherit(g, local)
  {
    if delta != [] {
      var n := |delta| - 1;
      assert delta == delta[..n] + [delta[n]];
      DeltaPartFrom(delta[..n], local, gone);
      assert forall g | g in delta[..n] :: g in delta;
      assert delta[n] in delta;
    }
  }

  /** Whatever the inputs: a group is in the tree exactly if it is a pulled one, or a local one that no pulled one replaces. */
  lemma MergedTreeIs(local: seq<Group>, delta: seq<Group>, deletions: seq<Deletion>, h: Group)
    ensures h in MergedTree(local, delta, deletions) <==>
              h.uuid !in DeletedUuids(deletions)
              && ((exists g :: g in delta && h == Inherit(g, ByUuid(local)))
                  || (h in local && h.uuid !in GroupUuids(delta)))
  {
    var gone, known := DeletedUuids(deletions), ByUuid(local);
    var d := DeltaPart(delta, known, gone);
    DeltaPartFrom(delta, known, gone);
    DeltaPartHolds(delta, known, gone);
    DeltaPartUuids(delta, known, gone);
    LocalPartHolds(local, GroupUuids(d) + gone);
  }

  /** A reference to a group that is not among `groups` falls back to Root. */
  function ResolveAmong(parent: Option<Uuid>, groups: set<Uuid>): Option<Uuid> {
    if parent.Some? && parent.value !in groups then None else parent
  }

  /** Where the staging builder files an object. */
  function ResolveParent(parent: Option<Uuid>, groups: seq<Group>): Option<Uuid> {
    ResolveAmong(parent, GroupUuids(groups))
  }

  /** A pulled entry keeps its group exactly when that group lives in either input and is not tombstoned. */
  lemma PulledEntryKeepsItsGroup(local: seq<Group>, delta: seq<Group>, deletions: seq<Deletion>, parent: Uuid)
    ensures ResolveParent(Some(parent), MergedTree(local, delta, deletions)) == Some(parent)
       <==> parent in GroupUuids(local) + GroupUuids(delta) && parent !in DeletedUuids(deletions)
  {
    MergedTreeUuids(local, delta, deletions);
  }

  // ---------------------------------------------------------------- known groups

  /** The known UUIDs outside `current`, in their order. */
  function Missing(known: seq<Uuid>, current: set<Uuid>): (r: seq<Uuid>)
    ensures forall u :: u in r <==> u in known && u !in current
    ensures StrictlyIncreasing(known) ==> StrictlyIncreasing(r)
    ensures |r| <= |known|
  {
    if known == [] then []
    else
      var n := |known| - 1;
      var rest := Missing(known[..n], current);
      assert known == known[..n] + [known[n]];
      assert forall i | 0 <= i < |rest| :: rest[i] in rest;
      if known[n] in current then rest else rest + [known[n]]
  }

  method PruneKnownGroups(known: seq<Uuid>, deletions: seq<Deletion>) returns (out: seq<Uuid>)
    ensures out == Missing(known, DeletedUuids(deletions))
  {
    if |known| == 0 || |deletions| == 0 {
      MissingNone(known, DeletedUuids(deletions));
      return known;
    }
    var gone: set<Uuid> := {};
    for i := 0 to |deletions|
      invariant gone == DeletedUuids(deletions[..i])
    {
      assert deletions[..i + 1] == deletions[..i] + [deletions[i]];
      gone := gone + {deletions[i].uuid};
    }
    assert deletions[..|deletions|] == deletions;
    out := [];
    for i := 0 to |known|
      invariant out == Missing(known[..i], gone)
    {
      assert known[..i + 1][..i] == known[..i];
      if known[i] !in gone {
        out := out + [known[i]];
      }
    }
    assert known[..|known|] == known;
  }

  lemma {:induction false} MissingNone(known: seq<Uuid>, current: set<Uuid>)
    requires forall u | u in known :: u !in current
    ensures Missing(known, current) == known
  {
    if known != [] {
      var n := |known| - 1;
      assert known == known[..n] + [known[n]];
      assert forall u | u in known[..n] :: u in known;
      MissingNone(known[..n], current);
      MissingAppend(known[..n], known[n], current);
    }
  }

  lemma {:induction false} MissingAll(known: seq<Uuid>, current: set<Uuid>)
    requires forall u | u in known :: u in current
    ensures Missing(known, current) == []
  {
    if known != [] {
      var n := |known| - 1;
      assert known[n] in known;
      forall u | u in known[..n] ensures u in current { assert u in known; }
      MissingAll(known[..n], current);
    }
  }

  lemma MissingAppend(known: seq<Uuid>, u: Uuid, current: set<Uuid>)
    ensures Missing(known + [u], current) == if u in current then Missing(known, current) else Missing(known, current) + [u]
  {
    assert (known + [u])[..|known|] == known;
  }

  lemma OneMoreKnown(known: seq<Uuid>, i: nat, current: set<Uuid>)
    requires i < |known|
    ensures Missing(known[..i + 1], current)
         == if known[i] in current then Missing(known[..i], current) else Missing(known[..i], current) + [known[i]]
  {
    assert known[..i + 1] == known[..i] + [known[i]];
    MissingAppend(known[..i], known[i], current);
  }

  /** What a sync would tombstone, and how much of that is explained by neither tree nor recycle bin. */
  method DoomedGroups(known: seq<Uuid>, current: set<Uuid>, trashed: seq<Uuid>)
    returns (doomed: seq<Uuid>, unexplained: nat)
    ensures doomed == Missing(known, current)
    ensures unexplained == |Missing(doomed, ToSet(trashed))|
  {
    doomed, unexplained := [], 0;
    var i := 0;
    while i < |known|
      invariant i <= |known|
      invariant doomed == Missing(known[..i], current)
      invariant unexplained == |Missing(doomed, ToSet(trashed))|
    {
      OneMoreKnown(known, i, current);
      MissingAppend(doomed, known[i], ToSet(trashed));
      if known[i] !in current {
        doomed := doomed + [known[i]];
        if known[i] !in trashed {
          unexplained := unexplained + 1;
        }
      }
      i := i + 1;
    }
    assert known[..i] == known;
  }

  predicate RefuseGroupDeletion(doomed: int, known: int) {
    if doomed <= GROUP_DELETE_FLOOR then false
    else doomed * 100 > known * GROUP_DELETE_PERCENT
  }
}
