/**
 What a client sees of the server: one log of versions per database, numbered by position
 (server/src/Controllers/EntryController.php), and the last-writer-wins merge of what it returns.
 */
module Server {
  import opened Basics
  import opened Tracking
  import opened GroupTree

  // The version with sequence number n is log[n - 1].
  type Device = nat

  // What a live object holds: an entry's fragment, or the fields of a group that go over the wire.
  datatype Body = Fragment(text: string) | Header(name: string, notes: string, icon: int, created: Time)

  // An entry or a group as KeePass merges it: the content as of `mod`, and for live objects the place as of
  // `moved`. A place of None is Root.
  datatype Obj = Live(mod: Time, body: Body, moved: Time, place: Option<Uuid>) | Dead(mod: Time)

  datatype Version = Version(author: Device, uuid: Uuid, obj: Obj)

  type Local = map<Uuid, Obj>

  predicate IsFolder(o: Obj) {
    o.Live? && o.body.Header?
  }

  function Folders(file: Local): set<Uuid> {
    set u | u in file && IsFolder(file[u])
  }

  /** The time that decides whether an object is uploaded. */
  function Trigger(o: Obj): Time {
    if o.Live? then LaterTime(o.mod, o.moved) else o.mod
  }

  /** Last writer wins, and a deletion wins a tie: content by modification time, placement by move time. */
  function Merge(mine: Obj, theirs: Obj): Obj {
    var (win, lose) := if theirs.mod > mine.mod || (theirs.mod == mine.mod && theirs.Dead?) then (theirs, mine)
                       else (mine, theirs);
    if win.Live? && lose.Live? && lose.moved > win.moved then win.(moved := lose.moved, place := lose.place) else win
  }

  function MergeInto(file: Local, u: Uuid, o: Obj): Obj {
    if u in file then Merge(file[u], o) else o
  }

  /** Position of the newest version of `u`. */
  function Newest(log: seq<Version>, u: Uuid): (r: Option<nat>)
    ensures r.Some? ==> r.value < |log| && log[r.value].uuid == u
    ensures forall i | 0 <= i < |log| && log[i].uuid == u :: r.Some? && i <= r.value
  {
    if log == [] then None
    else var n := |log| - 1; if log[n].uuid == u then Some(n) else Newest(log[..n], u)
  }

  /** Position of the newest version of `u` that `me` did not write. */
  function NewestForeign(log: seq<Version>, u: Uuid, me: Device): (r: Option<nat>)
    ensures r.Some? ==> r.value < |log| && log[r.value].uuid == u && log[r.value].author != me
    ensures forall i | 0 <= i < |log| && log[i].uuid == u && log[i].author != me :: r.Some? && i <= r.value
  {
    if log == [] then None
    else
      var n := |log| - 1;
      if log[n].uuid == u && log[n].author != me then Some(n) else NewestForeign(log[..n], u, me)
  }

  ghost predicate InLog(log: seq<Version>, u: Uuid) {
    Newest(log, u).Some?
  }

  /** The server's newest version of an object. */
  function Latest(log: seq<Version>, u: Uuid): Obj
    requires Newest(log, u).Some?
  {
    log[Newest(log, u).value].obj
  }

  lemma NewestAppend(log: seq<Version>, v: Version, u: Uuid)
    ensures Newest(log + [v], u) == (if v.uuid == u then Some(|log|) else Newest(log, u))
  {
    assert (log + [v])[..|log|] == log;
  }

  /** What `GET /changes?since=` returns: the newest version of each object, where that is after `since`. */
  function Offered(log: seq<Version>, since: nat): set<nat> {
    set i | since <= i < |log| && Newest(log, log[i].uuid) == Some(i)
  }

  function OfferedUuids(log: seq<Version>, since: nat): set<Uuid> {
    set i | i in Offered(log, since) :: log[i].uuid
  }

  /** The groups the staging database of a pull has: the local ones and the pulled ones, less the deleted. */
  function StagedFolders(file: Local, log: seq<Version>, since: nat): set<Uuid> {
    Folders(file) + (set i | i in Offered(log, since) && IsFolder(log[i].obj) :: log[i].uuid)
    - (set i | i in Offered(log, since) && log[i].obj.Dead? :: log[i].uuid)
  }

  /** An object as it is staged: one filed in a group the staging database lacks goes to Root. */
  function Filed(o: Obj, folders: set<Uuid>): Obj {
    if o.Live? then o.(place := ResolveAmong(o.place, folders)) else o
  }

  /** The local database after merging those versions. */
  function MergeOffered(file: Local, log: seq<Version>, since: nat): (r: Local)
    ensures r.Keys == file.Keys + OfferedUuids(log, since)
  {
    map u | u in file.Keys + OfferedUuids(log, since) ::
      var n := Newest(log, u);
      if n.Some? && n.value >= since then MergeInto(file, u, Filed(log[n.value].obj, StagedFolders(file, log, since)))
      else file[u]
  }

  /**
   Merging never loses a later modification or a later move, from either side: content and life or death are those of
   the later modification, in which a deletion wins a tie, and the place of what lives on both sides that of the later
   move.
   */
  lemma MergeKeepsLatest(a: Obj, b: Obj)
    ensures Merge(a, b).mod == Max(a.mod, b.mod)
    ensures Merge(a, b).Dead? <==> (a.Dead? && a.mod >= b.mod) || (b.Dead? && b.mod >= a.mod)
    ensures a.Live? && b.Live? ==> Merge(a, b).Live? && Merge(a, b).moved == Max(a.moved, b.moved)
    ensures a.Live? && (a.mod > b.mod || a == b) ==> Merge(a, b).Live? && Merge(a, b).body == a.body
    ensures b.Live? && b.mod > a.mod ==> Merge(a, b).Live? && Merge(a, b).body == b.body
    ensures a.Live? && b.Live? && a.moved > b.moved ==> Merge(a, b).place == a.place
    ensures a.Live? && b.Live? && b.moved > a.moved ==> Merge(a, b).place == b.place
    ensures a.Live? && b.Dead? && a.mod > b.mod ==> Merge(a, b) == a
    ensures b.Live? && a.Dead? && b.mod > a.mod ==> Merge(a, b) == b
  {}

  lemma MergeOfferedRaises(file: Local, log: seq<Version>, since: nat)
    ensures var r := MergeOffered(file, log, since);
            && (forall u | u in file :: u in r && file[u].mod <= r[u].mod)
            && (forall i | i in Offered(log, since) :: log[i].uuid in r && log[i].obj.mod <= r[log[i].uuid].mod)
  {
    var r, folders := MergeOffered(file, log, since), StagedFolders(file, log, since);
    forall u | u in file ensures u in r && file[u].mod <= r[u].mod {
      var n := Newest(log, u);
      if n.Some? && n.value >= since {
        MergeKeepsLatest(file[u], Filed(log[n.value].obj, folders));
      }
    }
    forall i | i in Offered(log, since) ensures log[i].uuid in r && log[i].obj.mod <= r[log[i].uuid].mod {
      assert log[i].uuid in OfferedUuids(log, since);
      if log[i].uuid in file {
        MergeKeepsLatest(file[log[i].uuid], Filed(log[i].obj, folders));
      }
    }
  }

  lemma NewestForeignStable(log: seq<Version>, k: nat, n: nat, u: Uuid, me: Device)
    requires k <= n <= |log|
    requires forall i | k <= i < n :: log[i].author == me || log[i].uuid != u
    ensures NewestForeign(log[..n], u, me) == NewestForeign(log[..k], u, me)
  {
    var a, b := NewestForeign(log[..n], u, me), NewestForeign(log[..k], u, me);
    if a.Some? {
      assert log[..n][a.value] == log[a.value];
      assert a.value < k && log[..k][a.value] == log[a.value];
    }
    if b.Some? {
      assert log[..k][b.value] == log[b.value] && log[..n][b.value] == log[b.value];
    }
  }
}
