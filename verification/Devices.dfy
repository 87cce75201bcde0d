/**
 Any number of devices over one server, with sync cycles that do not interleave. The two halves of a cycle are
 the pull and the push themselves (PullSide.Pull, PushSide.Push) on the device's tracking state; the local
 database, its groups included, merges what the pull staged, last writer wins.
 */
module Devices {
  import opened Basics
  import opened Tracking
  import opened GroupTree
  import opened PushSide
  import opened PullSide
  import opened Server
  import Commands

  // `bin` is the groups in the recycle bin. Entries there count as deleted, with the time they were put there.
  datatype Dev = Dev(file: Local, bin: set<Uuid>, tracked: Tracked)

  // `made` is history: every version of every object the users ever made.
  datatype World = World(log: seq<Version>, devs: seq<Dev>, made: set<(Uuid, Obj)>)

  datatype Event =
    | Edit(d: Device, u: Uuid, o: Obj)
    | Drop(d: Device, u: Uuid, binned: bool)       // a group goes, to the recycle bin or without a trace
    | PullFails(d: Device, kept: bool)             // the merge fails; the daemon keeps what it recorded
    | Sync(d: Device, answers: nat, kept: bool, now: Time)
        // the network fails after `answers` uploads, if that many are due; what the device has recorded is kept, or
        // dropped as by a command that failed part-way or could not save

  // ---------------------------------------------------------------- the server's answer

  function GroupOf(u: Uuid, o: Obj): Group
    requires IsFolder(o)
  {
    Group(u, o.place, o.body.name, o.body.notes, o.body.icon, o.body.created, o.mod, o.moved, None)
  }

  function ChangeOf(v: Version): Change {
    if v.obj.Dead? then Change(v.uuid, v.obj.mod, true, EntryContent(None, 0, ""), Fine)
    else if IsFolder(v.obj) then Change(v.uuid, v.obj.mod, false, GroupContent(GroupOf(v.uuid, v.obj)), Fine)
    else Change(v.uuid, v.obj.mod, false, EntryContent(v.obj.place, v.obj.moved, v.obj.body.text), Fine)
  }

  /** The answer to GET /changes, oldest version first. */
  function ChangesOf(log: seq<Version>, since: nat): seq<Change> {
    var order := SortedSeq(Offered(log, since));
    seq(|order|, k requires 0 <= k < |order| => assert order[k] in order; ChangeOf(log[order[k]]))
  }

  function PullEnvOf(file: Local, log: seq<Version>, since: nat, mergeOk: bool): PullEnv {
    PullEnv(Some(Response(|log|, ChangesOf(log, since))), GroupsOf(file), mergeOk)
  }

  /** Which versions the changes of an answer stand for. */
  lemma ChangesAreOffered(log: seq<Version>, since: nat)
    ensures forall c | c in ChangesOf(log, since) :: exists i :: i in Offered(log, since) && c == ChangeOf(log[i])
    ensures forall i | i in Offered(log, since) :: ChangeOf(log[i]) in ChangesOf(log, since)
  {
    var order, cs := SortedSeq(Offered(log, since)), ChangesOf(log, since);
    forall c | c in cs ensures exists i :: i in Offered(log, since) && c == ChangeOf(log[i]) {
      var k :| 0 <= k < |cs| && cs[k] == c;
      assert order[k] in order;
    }
    forall i | i in Offered(log, since) ensures ChangeOf(log[i]) in cs {
      assert i in order;
      var k :| 0 <= k < |order| && order[k] == i;
      assert cs[k] == ChangeOf(log[i]);
    }
  }

  // ---------------------------------------------------------------- the export

  /** The remaining groups whose parent is not among them. */
  function Ready(file: Local, left: set<Uuid>): set<Uuid>
    requires left <= Folders(file)
  {
    set u | u in left && !(file[u].place.Some? && file[u].place.value in left)
  }

  function Children(file: Local, left: set<Uuid>, u: Uuid): set<Uuid>
    requires left <= Folders(file)
  {
    set v | v in left && file[v].place == Some(u)
  }

  /** What comes next once the walk is at the first of `todo`. */
  function UpNext(file: Local, left: set<Uuid>, todo: seq<Uuid>): (r: seq<Uuid>)
    requires left <= Folders(file) && todo != [] && Distinct(todo) && forall u | u in todo :: u in left
    ensures Distinct(r) && forall u | u in r :: u in left - {todo[0]}
  {
    var kids := SortedSeq(Children(file, left - {todo[0]}, todo[0]) - ToSet(todo));
    DistinctConcat(kids, todo[1..]);
    kids + todo[1..]
  }

  /**
   The remaining groups depth first, each before what is filed in it: those in `todo` come next. It starts with the
   groups in Root. (In a file, which is a tree, some are always ready.)
   */
  function Preorder(file: Local, left: set<Uuid>, todo: seq<Uuid>): (r: seq<Uuid>)
    requires left <= Folders(file) && Distinct(todo) && forall u | u in todo :: u in left
    ensures forall u :: u in r <==> u in left
    ensures Distinct(r)
    decreases |left|, if todo == [] then 1 else 0
  {
    if left == {} then []
    else if todo == [] then Preorder(file, left, SortedSeq(if Ready(file, left) == {} then left else Ready(file, left)))
    else
      var u := todo[0];
      SmallerWithout(left, {u});
      var rest := Preorder(file, left - {u}, UpNext(file, left, todo));
      assert forall i | 0 <= i < |rest| :: rest[i] in rest;
      [u] + rest
  }

  lemma SmallerWithout(s: set<Uuid>, t: set<Uuid>)
    requires t <= s && t != {}
    ensures |s - t| < |s|
  {
    assert s == (s - t) + t;
  }

  lemma DistinctConcat(a: seq<Uuid>, b: seq<Uuid>)
    requires StrictlyIncreasing(a) && Distinct(b) && forall u | u in a :: u !in b
    ensures Distinct(a + b)
  {
    forall i, j | 0 <= i < j < |a + b| ensures (a + b)[i] != (a + b)[j] {
      if i < |a| <= j {
        assert a[i] in a && b[j - |a|] in b;
      }
    }
  }

  function Walk(file: Local): seq<Uuid> {
    Preorder(file, Folders(file), [])
  }

  function GroupsOf(file: Local): (r: seq<Group>)
    ensures |r| == |Walk(file)|
  {
    var us := Walk(file);
    seq(|us|, k requires 0 <= k < |us| => assert us[k] in us; GroupOf(us[k], file[us[k]]))
  }

  function EntryUuids(file: Local): set<Uuid> {
    set u | u in file && file[u].Live? && !IsFolder(file[u])
  }

  function DeadUuids(file: Local): set<Uuid> {
    set u | u in file && file[u].Dead?
  }

  function EntriesOf(file: Local): (r: seq<Entry>)
    ensures |r| == |SortedSeq(EntryUuids(file))|
  {
    var us := SortedSeq(EntryUuids(file));
    seq(|us|, k requires 0 <= k < |us| =>
      assert us[k] in us;
      var o := file[us[k]];
      Entry(us[k], o.mod, o.moved, o.place, o.body.text))
  }

  function DeletionsOf(file: Local): (r: seq<Deletion>)
    ensures |r| == |SortedSeq(DeadUuids(file))|
  {
    var us := SortedSeq(DeadUuids(file));
    seq(|us|, k requires 0 <= k < |us| => assert us[k] in us; Deletion(us[k], file[us[k]].mod))
  }

  function ExportOf(dev: Dev): Export {
    Export(EntriesOf(dev.file), GroupsOf(dev.file), DeletionsOf(dev.file), SortedSeq(dev.bin))
  }

  lemma GroupsAreFolders(file: Local)
    ensures GroupUuids(GroupsOf(file)) == Folders(file)
  {
    var us, gs := Walk(file), GroupsOf(file);
    forall u ensures u in GroupUuids(gs) <==> u in Folders(file) {
      if u in Folders(file) {
        assert u in us;
        var k :| 0 <= k < |us| && us[k] == u;
        assert gs[k] in gs && gs[k].uuid == u;
      }
      if u in GroupUuids(gs) {
        var g :| g in gs && g.uuid == u;
        var k :| 0 <= k < |gs| && gs[k] == g;
        assert us[k] in us;
      }
    }
  }

  /** What the guard counts: the known groups that are neither in the file nor in the recycle bin. */
  lemma BinnedGroupsAreExplained(dev: Dev)
    ensures var lost := Missing(Missing(dev.tracked.known, Folders(dev.file)), dev.bin);
            Refused(dev.tracked.known, ExportOf(dev)) <==> |lost| > 5 && 4 * |lost| > |dev.tracked.known|
  {
    GroupsAreFolders(dev.file);
    assert ToSet(SortedSeq(dev.bin)) == dev.bin;
  }

  // ---------------------------------------------------------------- parents first

  ghost predicate Ranked(file: Local, rank: Uuid -> nat) {
    forall u | u in Folders(file) && file[u].place.Some? && file[u].place.value in Folders(file) ::
      rank(file[u].place.value) < rank(u)
  }

  /** The groups of a file form a tree. */
  ghost predicate IsTree(file: Local) {
    exists rank: Uuid -> nat :: Ranked(file, rank)
  }

  lemma {:induction false} LowestRank(s: set<Uuid>, rank: Uuid -> nat) returns (m: Uuid)
    requires s != {}
    ensures m in s && forall u | u in s :: rank(m) <= rank(u)
  {
    m :| m in s;
    var rest := s - {m};
    assert forall u | u in s :: u == m || u in rest;
    if rest != {} {
      var b := LowestRank(rest, rank);
      m := if rank(m) < rank(b) then m else b;
    }
  }

  /** `r[k]` is not filed below anything listed after it. */
  predicate ParentListed(file: Local, left: set<Uuid>, r: seq<Uuid>, k: nat)
    requires left <= Folders(file) && k < |r| && r[k] in left
  {
    file[r[k]].place.Some? && file[r[k]].place.value in left ==> file[r[k]].place.value in r[..k]
  }

  lemma UpNextIsReady(file: Local, left: set<Uuid>, todo: seq<Uuid>)
    requires left <= Folders(file) && todo != [] && Distinct(todo)
    requires forall u | u in todo :: u in left && u in Ready(file, left)
    ensures forall u | u in UpNext(file, left, todo) :: u in left - {todo[0]} && u in Ready(file, left - {todo[0]})
  {}

  /** In a tree every group is exported after the one it is filed in. */
  lemma {:induction false} ParentsFirst(file: Local, left: set<Uuid>, todo: seq<Uuid>, rank: Uuid -> nat, k: nat)
    requires Ranked(file, rank) && left <= Folders(file) && Distinct(todo)
    requires forall u | u in todo :: u in left && u in Ready(file, left)
    requires k < |Preorder(file, left, todo)|
    ensures Preorder(file, left, todo)[k] in left && ParentListed(file, left, Preorder(file, left, todo), k)
    decreases |left|, if todo == [] then 1 else 0
  {
    if todo == [] {
      SomeAreReady(file, left, rank);
      ParentsFirst(file, left, SortedSeq(Ready(file, left)), rank, k);
    } else {
      var u, next := todo[0], UpNext(file, left, todo);
      assert u in todo;
      SmallerWithout(left, {u});
      UpNextIsReady(file, left, todo);
      var rest := Preorder(file, left - {u}, next);
      assert Preorder(file, left, todo) == [u] + rest;
      if k > 0 {
        ParentsFirst(file, left - {u}, next, rank, k - 1);
        ListedLater(file, left, u, rest, k - 1);
      }
    }
  }

  lemma ListedLater(file: Local, left: set<Uuid>, u: Uuid, rest: seq<Uuid>, j: nat)
    requires left <= Folders(file) && j < |rest| && rest[j] in left - {u} && ParentListed(file, left - {u}, rest, j)
    ensures ([u] + rest)[j + 1] in left && ParentListed(file, left, [u] + rest, j + 1)
  {
    var r := [u] + rest;
    assert r[j + 1] == rest[j] && r[..j + 1] == [u] + rest[..j];
  }

  // ---------------------------------------------------------------- depth first

  /** The group an object is filed in, if the file has it. */
  function Home(file: Local, u: Uuid): Option<Uuid>
    requires u in Folders(file)
  {
    if file[u].place.Some? && file[u].place.value in Folders(file) then file[u].place else None
  }

  /** `a` is `n` groups up from `u`. */
  predicate Up(file: Local, u: Uuid, a: Uuid, n: nat)
    decreases n
  {
    if n == 0 then u == a
    else u in Folders(file) && Home(file, u).Some? && Up(file, Home(file, u).value, a, n - 1)
  }

  /** `u` is `a`, or somewhere inside it. */
  ghost predicate Inside(file: Local, u: Uuid, a: Uuid) {
    exists n: nat :: Up(file, u, a, n)
  }

  /** In Root, or in a group that `u` is, or is somewhere inside. */
  ghost predicate Around(file: Local, home: Option<Uuid>, u: Uuid) {
    home.Some? ==> Inside(file, u, home.value)
  }

  /** What is inside the group something is filed in is around that, too. */
  lemma OneUp(file: Local, u: Uuid, home: Option<Uuid>)
    requires u in Folders(file) && (home.Some? ==> Home(file, u).Some? && Inside(file, Home(file, u).value, home.value))
    ensures Around(file, home, u)
  {
    if home.Some? {
      var n: nat :| Up(file, Home(file, u).value, home.value, n);
      assert Up(file, u, home.value, n + 1);
    }
  }

  /** Of what waits, the later is filed around what the earlier is filed in. */
  ghost predicate Nested(file: Local, todo: seq<Uuid>)
    requires forall u | u in todo :: u in Folders(file)
  {
    forall i, j | 0 <= i < j < |todo| ::
      todo[i] in todo && todo[j] in todo
      && (Home(file, todo[j]).Some? ==>
            Home(file, todo[i]).Some? && Inside(file, Home(file, todo[i]).value, Home(file, todo[j]).value))
  }

  /** Everything left is filed in something left, or waits, or is in Root. */
  ghost predicate Complete(file: Local, left: set<Uuid>, todo: seq<Uuid>)
    requires left <= Folders(file)
  {
    forall u | u in left :: Home(file, u).Some? ==> Home(file, u).value in left || u in todo
  }

  /** Once the walk is at `u`, what comes next is in Root or around `u`, and the order of what waits is as good as before. */
  lemma UpNextIsNested(file: Local, left: set<Uuid>, todo: seq<Uuid>)
    requires left <= Folders(file) && todo != [] && Distinct(todo) && (forall u | u in todo :: u in left)
    requires Nested(file, todo) && Complete(file, left, todo)
    ensures var u, next := todo[0], UpNext(file, left, todo);
            && (forall v | v in next :: v in left - {u}) && Nested(file, next) && Complete(file, left - {u}, next)
            && forall v | v in next :: Around(file, Home(file, v), u)
  {
    var u, next := todo[0], UpNext(file, left, todo);
    var kids := SortedSeq(Children(file, left - {u}, u) - ToSet(todo));
    assert next == kids + todo[1..] && u in todo;
    assert Up(file, u, u, 0);
    forall j | 1 <= j < |todo| ensures Around(file, Home(file, todo[j]), u) && todo[j] in todo {
      OneUp(file, u, Home(file, todo[j]));
    }
    forall i | 0 <= i < |next|
      ensures next[i] in next && next[i] in left - {u} && Around(file, Home(file, next[i]), u)
      ensures i < |kids| ==> Home(file, next[i]) == Some(u)
    {
      assert next[i] in next;
      if i < |kids| {
        assert next[i] in kids;
      } else {
        assert next[i] == todo[i - |kids| + 1];
      }
    }
  }

  /** What follows a group is in Root, in that group, or in one around it. */
  ghost predicate FollowsWell(file: Local, r: seq<Uuid>, k: nat) {
    && k + 1 < |r| && r[k] in Folders(file) && r[k + 1] in Folders(file)
    && Around(file, Home(file, r[k + 1]), r[k])
  }

  /** The walk is depth first. */
  lemma {:induction false} DepthFirst(file: Local, left: set<Uuid>, todo: seq<Uuid>, rank: Uuid -> nat, k: nat)
    requires left <= Folders(file) && Distinct(todo) && (forall u | u in todo :: u in left) && Ranked(file, rank)
    requires Nested(file, todo) && Complete(file, left, todo) && k + 1 < |Preorder(file, left, todo)|
    ensures FollowsWell(file, Preorder(file, left, todo), k)
    decreases |left|, if todo == [] then 1 else 0
  {
    if todo == [] {
      SomeAreReady(file, left, rank);
      RootsAreNested(file, left);
      DepthFirst(file, left, SortedSeq(Ready(file, left)), rank, k);
    } else {
      var u, next := todo[0], UpNext(file, left, todo);
      SmallerWithout(left, {u});
      UpNextIsNested(file, left, todo);
      var rest := Preorder(file, left - {u}, next);
      if k > 0 {
        DepthFirst(file, left - {u}, next, rank, k - 1);
        FollowsBehind(file, u, rest, k - 1);
      } else {
        FirstIsNext(file, left - {u}, next, rank);
        assert u in todo && FollowsWell(file, [u] + rest, 0);
      }
    }
  }

  lemma FollowsBehind(file: Local, u: Uuid, rest: seq<Uuid>, k: nat)
    requires FollowsWell(file, rest, k)
    ensures FollowsWell(file, [u] + rest, k + 1)
  {}

  /** Depth first, in a tree: of two groups exported one after the other, the second is in Root, or in the first, or in a group around it. */
  lemma WalkIsDepthFirst(file: Local, k: nat)
    requires IsTree(file) && k + 1 < |Walk(file)|
    ensures FollowsWell(file, Walk(file), k)
  {
    var rank: Uuid -> nat :| Ranked(file, rank);
    DepthFirst(file, Folders(file), [], rank, k);
  }

  /** When nothing waits, what is ready is in Root. */
  lemma RootsAreNested(file: Local, left: set<Uuid>)
    requires left <= Folders(file) && Complete(file, left, [])
    ensures var roots := SortedSeq(Ready(file, left));
            && Nested(file, roots) && Complete(file, left, roots)
            && forall v | v in roots :: v in left && Home(file, v).None?
  {
    var roots := SortedSeq(Ready(file, left));
    assert forall i | 0 <= i < |roots| :: roots[i] in roots;
  }

  lemma FirstIsNext(file: Local, left: set<Uuid>, todo: seq<Uuid>, rank: Uuid -> nat)
    requires left <= Folders(file) && Distinct(todo) && (forall u | u in todo :: u in left) && Ranked(file, rank)
    requires Complete(file, left, todo) && Preorder(file, left, todo) != []
    ensures var r := Preorder(file, left, todo);
            r[0] in r && (r[0] in todo || Home(file, r[0]).None?)
  {
    var r := Preorder(file, left, todo);
    assert r[0] in r;
    if todo == [] {
      SomeAreReady(file, left, rank);
      RootsAreNested(file, left);
      var roots := SortedSeq(Ready(file, left));
      assert roots[0] in roots && r[0] == roots[0];
    } else {
      assert todo[0] in todo && r[0] == todo[0];
    }
  }

  lemma SomeAreReady(file: Local, left: set<Uuid>, rank: Uuid -> nat)
    requires Ranked(file, rank) && left <= Folders(file) && left != {}
    ensures Ready(file, left) != {}
  {
    var lowest := LowestRank(left, rank);
    assert lowest in Ready(file, left);
  }

  // ---------------------------------------------------------------- the push as one run

  /** The group tombstones of a push, none if the guard refuses. */
  function Tombs(dev: Dev, now: Time): seq<Item> {
    if Refused(dev.tracked.known, ExportOf(dev)) then []
    else GroupTombstones(Missing(dev.tracked.known, Folders(dev.file)), now)
  }

  function ItemsOf(dev: Dev, now: Time): seq<Item> {
    GroupItems(GroupsOf(dev.file))
    + (Tombs(dev, now) + (EntryItems(EntriesOf(dev.file)) + DeletionItems(DeletionsOf(dev.file))))
  }

  /** The server numbers accepted uploads consecutively. */
  function Consecutive(base: nat, n: nat): seq<Reply> {
    seq(n, k requires 0 <= k < n => Accepted(base + 1 + k))
  }

  function PushedDev(dev: Dev, log: seq<Version>, answers: nat, now: Time): PushResult {
    Push(dev.tracked, ExportOf(dev), now, Consecutive(|log|, answers))
  }

  lemma FailedRunStays(p: Progress, a: seq<Item>, b: seq<Item>)
    ensures Run(p, a).failed ==> Run(p, a + b) == Run(p, a)
  {
    if Run(p, a).failed {
      assert (a + b)[..|a|] == a;
      RunStaysFailed(p, a + b, |a|);
    }
  }

  lemma PushIsOneRun(dev: Dev, now: Time, replies: seq<Reply>)
    ensures var r := Push(dev.tracked, ExportOf(dev), now, replies);
            var p := Run(Start(dev.tracked.states, replies), ItemsOf(dev, now));
            && r.tracked.states == p.states && r.sent == p.sent && r.maxSeq == p.maxSeq && r.failed == p.failed
            && r.tracked.lastSeq == dev.tracked.lastSeq
            && (r.tracked.known == dev.tracked.known || r.tracked.known == SortedSeq(Folders(dev.file)))
            && (!r.failed && !Refused(dev.tracked.known, ExportOf(dev)) ==>
                  r.tracked.known == SortedSeq(Folders(dev.file)))
  {
    var p0, gi, ti := Start(dev.tracked.states, replies), GroupItems(GroupsOf(dev.file)), Tombs(dev, now);
    var ei := EntryItems(EntriesOf(dev.file)) + DeletionItems(DeletionsOf(dev.file));
    GroupsAreFolders(dev.file);
    RunSplit(p0, gi, ti + ei);
    RunSplit(Run(p0, gi), ti, ei);
    FailedRunStays(p0, gi, ti + ei);
    FailedRunStays(Run(p0, gi), ti, ei);
    assert Run(Run(p0, gi), []) == Run(p0, gi);
  }

  /** An upload of an object of the file, timed by it, or a tombstone for a group it lacks. */
  predicate FromDevice(dev: Dev, now: Time, it: Item) {
    if it.kind.GroupTombstone?
    then it.uuid in dev.tracked.known && it.uuid !in Folders(dev.file) && it.trigger == now
    else it.uuid in dev.file && it.trigger == Trigger(dev.file[it.uuid])
  }

  /** The item of an object of the file. */
  predicate Own(file: Local, it: Item) {
    !it.kind.GroupTombstone? && it.uuid in file && it.trigger == Trigger(file[it.uuid])
  }

  /** The items of some objects of the file, in order. */
  predicate OwnItems(file: Local, items: seq<Item>, us: seq<Uuid>) {
    |items| == |us| && forall k | 0 <= k < |us| :: items[k].uuid == us[k] && Own(file, items[k])
  }

  predicate AllTombs(dev: Dev, now: Time, items: seq<Item>) {
    forall k | 0 <= k < |items| :: items[k].kind.GroupTombstone? && FromDevice(dev, now, items[k])
  }

  // The four parts of a push, and the objects three of them are for.
  datatype Batch = Batch(groups: seq<Item>, tombs: seq<Item>, entries: seq<Item>, deletions: seq<Item>)

  predicate IsBatch(dev: Dev, now: Time, b: Batch) {
    && OwnItems(dev.file, b.groups, Walk(dev.file)) && AllTombs(dev, now, b.tombs)
    && OwnItems(dev.file, b.entries, SortedSeq(EntryUuids(dev.file)))
    && OwnItems(dev.file, b.deletions, SortedSeq(DeadUuids(dev.file)))
  }

  function Items(b: Batch): seq<Item> {
    b.groups + (b.tombs + (b.entries + b.deletions))
  }

  lemma ItemInBatch(b: Batch, k: nat)
    requires k < |Items(b)|
    ensures var g, t, e := |b.groups|, |b.groups| + |b.tombs|, |b.groups| + |b.tombs| + |b.entries|;
            Items(b)[k] == if k < g then b.groups[k]
                           else if k < t then b.tombs[k - g]
                           else if k < e then b.entries[k - t]
                           else b.deletions[k - e]
  {}

  lemma GroupItemsOwn(file: Local)
    ensures OwnItems(file, GroupItems(GroupsOf(file)), Walk(file))
  {
    forall k | 0 <= k < |Walk(file)| ensures Own(file, GroupItems(GroupsOf(file))[k]) {
      assert Walk(file)[k] in Walk(file);
    }
  }

  lemma EntryItemsOwn(file: Local)
    ensures OwnItems(file, EntryItems(EntriesOf(file)), SortedSeq(EntryUuids(file)))
  {
    var us := SortedSeq(EntryUuids(file));
    forall k | 0 <= k < |us| ensures Own(file, EntryItems(EntriesOf(file))[k]) {
      assert us[k] in us;
    }
  }

  lemma DeletionItemsOwn(file: Local)
    ensures OwnItems(file, DeletionItems(DeletionsOf(file)), SortedSeq(DeadUuids(file)))
  {
    var us := SortedSeq(DeadUuids(file));
    forall k | 0 <= k < |us| ensures Own(file, DeletionItems(DeletionsOf(file))[k]) {
      assert us[k] in us;
    }
  }

  lemma TombsAreTombs(dev: Dev, now: Time)
    ensures AllTombs(dev, now, Tombs(dev, now))
  {
    var gone := Missing(dev.tracked.known, Folders(dev.file));
    assert forall k | 0 <= k < |gone| :: gone[k] in gone;
  }

  /** The parts a push consists of. */
  lemma BatchOf(dev: Dev, now: Time) returns (b: Batch)
    ensures ItemsOf(dev, now) == Items(b) && IsBatch(dev, now, b) && b.tombs == Tombs(dev, now)
  {
    GroupItemsOwn(dev.file);
    EntryItemsOwn(dev.file);
    DeletionItemsOwn(dev.file);
    TombsAreTombs(dev, now);
    b := Batch(GroupItems(GroupsOf(dev.file)), Tombs(dev, now), EntryItems(EntriesOf(dev.file)),
               DeletionItems(DeletionsOf(dev.file)));
  }

  lemma BatchItem(dev: Dev, now: Time, b: Batch, k: nat)
    requires IsBatch(dev, now, b) && k < |Items(b)|
    ensures FromDevice(dev, now, Items(b)[k])
  {
    ItemInBatch(b, k);
  }

  lemma FileItemAt(dev: Dev, now: Time, k: nat)
    requires k < |ItemsOf(dev, now)|
    ensures FromDevice(dev, now, ItemsOf(dev, now)[k])
  {
    var b := BatchOf(dev, now);
    BatchItem(dev, now, b, k);
  }

  lemma ItemsFromDevice(dev: Dev, now: Time)
    ensures forall it | it in ItemsOf(dev, now) :: FromDevice(dev, now, it)
  {
    forall it | it in ItemsOf(dev, now) ensures FromDevice(dev, now, it) {
      var k :| 0 <= k < |ItemsOf(dev, now)| && ItemsOf(dev, now)[k] == it;
      FileItemAt(dev, now, k);
    }
  }

  /** The known groups are in the file. */
  ghost predicate KnownHere(dev: Dev) {
    forall u | u in dev.tracked.known :: u in Folders(dev.file)
  }

  /** With all known groups in the file there is nothing to tombstone. */
  lemma NoTombs(dev: Dev, now: Time)
    requires KnownHere(dev)
    ensures forall it | it in ItemsOf(dev, now) :: it.uuid in dev.file && !it.kind.GroupTombstone?
                                                   && it.trigger == Trigger(dev.file[it.uuid])
  {
    ItemsFromDevice(dev, now);
  }

  lemma Position(s: seq<Uuid>, u: Uuid) returns (k: nat)
    requires u in s
    ensures k < |s| && s[k] == u
  {
    k :| 0 <= k < |s| && s[k] == u;
  }

  lemma BatchItemOf(dev: Dev, now: Time, b: Batch, u: Uuid) returns (k: nat)
    requires IsBatch(dev, now, b) && u in dev.file
    ensures k < |Items(b)| && Items(b)[k].uuid == u && !Items(b)[k].kind.GroupTombstone?
    ensures u in Folders(dev.file) <==> k < |Walk(dev.file)|
    ensures u in Folders(dev.file) ==> Walk(dev.file)[k] == u
  {
    var t, e := |b.groups| + |b.tombs|, |b.groups| + |b.tombs| + |b.entries|;
    if u in Folders(dev.file) {
      k := Position(Walk(dev.file), u);
      assert Items(b)[k] == b.groups[k];
    } else if dev.file[u].Live? {
      var j := Position(SortedSeq(EntryUuids(dev.file)), u);
      k := t + j;
      assert Items(b)[k] == b.entries[j];
    } else {
      var j := Position(SortedSeq(DeadUuids(dev.file)), u);
      k := e + j;
      assert Items(b)[k] == b.deletions[j];
    }
  }

  /** Where an object of the file stands among the items of a push. */
  lemma ItemOf(dev: Dev, now: Time, u: Uuid) returns (k: nat)
    requires u in dev.file
    ensures k < |ItemsOf(dev, now)| && ItemsOf(dev, now)[k].uuid == u && !ItemsOf(dev, now)[k].kind.GroupTombstone?
    ensures u in Folders(dev.file) <==> k < |Walk(dev.file)|
    ensures u in Folders(dev.file) ==> Walk(dev.file)[k] == u
  {
    var b := BatchOf(dev, now);
    k := BatchItemOf(dev, now, b, u);
  }

  /** Which object an item is for, by where it stands. */
  function UuidAt(dev: Dev, tombs: nat, k: nat): Option<Uuid> {
    var us, es, ds := Walk(dev.file), SortedSeq(EntryUuids(dev.file)), SortedSeq(DeadUuids(dev.file));
    if k < |us| then Some(us[k])
    else if |us| + tombs <= k < |us| + tombs + |es| then Some(es[k - |us| - tombs])
    else if |us| + tombs + |es| <= k < |us| + tombs + |es| + |ds| then Some(ds[k - |us| - tombs - |es|])
    else None
  }

  lemma BatchPart(dev: Dev, now: Time, b: Batch, k: nat)
    requires IsBatch(dev, now, b) && k < |Items(b)| && !Items(b)[k].kind.GroupTombstone?
    ensures UuidAt(dev, |b.tombs|, k) == Some(Items(b)[k].uuid)
  {
    ItemInBatch(b, k);
  }

  lemma PlacesDiffer(dev: Dev, tombs: nat, i: nat, j: nat)
    requires i < j && UuidAt(dev, tombs, i).Some?
    ensures UuidAt(dev, tombs, i) != UuidAt(dev, tombs, j)
  {
    var us, es, ds := Walk(dev.file), SortedSeq(EntryUuids(dev.file)), SortedSeq(DeadUuids(dev.file));
    assert forall k | 0 <= k < |us| :: us[k] in us;
    assert forall k | 0 <= k < |es| :: es[k] in es;
    assert forall k | 0 <= k < |ds| :: ds[k] in ds;
  }

  /** The item of a group stands where the walk has the group, any other item behind the groups. */
  lemma GroupItemsFirst(dev: Dev, now: Time, k: nat)
    requires k < |ItemsOf(dev, now)| && !ItemsOf(dev, now)[k].kind.GroupTombstone?
    ensures k < |Walk(dev.file)| ==> ItemsOf(dev, now)[k].uuid == Walk(dev.file)[k]
  {
    var b := BatchOf(dev, now);
    BatchPart(dev, now, b, k);
  }

  /** Each object of the file has one item of its own; only a tombstone for a group the file lacks may share its UUID. */
  lemma ItemsDiffer(dev: Dev, now: Time, i: nat, j: nat)
    requires i < j < |ItemsOf(dev, now)|
    requires !ItemsOf(dev, now)[i].kind.GroupTombstone? && !ItemsOf(dev, now)[j].kind.GroupTombstone?
    ensures ItemsOf(dev, now)[i].uuid != ItemsOf(dev, now)[j].uuid
  {
    var b := BatchOf(dev, now);
    BatchPart(dev, now, b, i);
    BatchPart(dev, now, b, j);
    PlacesDiffer(dev, |b.tombs|, i, j);
  }

  lemma BatchTomb(b: Batch, j: nat) returns (k: nat)
    requires j < |b.tombs|
    ensures k < |Items(b)| && Items(b)[k] == b.tombs[j]
  {
    k := |b.groups| + j;
  }

  /** Every group tombstone due is among the items. */
  lemma TombOf(dev: Dev, now: Time, j: nat) returns (k: nat)
    requires j < |Tombs(dev, now)|
    ensures k < |ItemsOf(dev, now)| && ItemsOf(dev, now)[k] == Tombs(dev, now)[j]
  {
    var b := BatchOf(dev, now);
    k := BatchTomb(b, j);
  }

  // ---------------------------------------------------------------- one cycle

  /** A modification time as it is sent: to the second. */
  function Stamped(o: Obj): Obj {
    o.(mod := Floor(o.mod))
  }

  function TimeOf(r: Recorded): Time {
    if r.At? then r.t else 0
  }

  /** What whoever decrypts it makes of an accepted request: a group, an entry, or a tombstone, as of its modification time. */
  function StoredOf(it: Item): Obj {
    match (it.kind, it.payload)
    case (GroupPut, GroupBlob(g)) => Live(TimeOf(it.modifiedAt), Header(g.name, g.notes, g.icon, g.created), g.locationChanged, g.parent)
    case (EntryPut, EntryBlob(parent, moved, fragment)) => Live(TimeOf(it.modifiedAt), Fragment(fragment), moved, parent)
    case (_, _) => Dead(TimeOf(it.modifiedAt))
  }

  function Stored(d: Device, sent: seq<Item>): (r: seq<Version>)
    ensures |r| == |sent|
  {
    seq(|sent|, k requires 0 <= k < |sent| => Version(d, sent[k].uuid, StoredOf(sent[k])))
  }

  /** The version of an object that a request of the device stands for. */
  function SentObj(file: Local, it: Item): Obj
    requires it.kind.GroupTombstone? || it.uuid in file
  {
    if it.kind.GroupTombstone? then Dead(Floor(it.trigger)) else Stamped(file[it.uuid])
  }

  predicate Sendable(file: Local, sent: seq<Item>) {
    forall it | it in sent :: it.kind.GroupTombstone? || it.uuid in file
  }

  function Uploaded(d: Device, file: Local, sent: seq<Item>): seq<Version>
    requires Sendable(file, sent)
  {
    seq(|sent|, k requires 0 <= k < |sent| =>
      assert sent[k] in sent; Version(d, sent[k].uuid, SentObj(file, sent[k])))
  }

  lemma UploadedAt(d: Device, file: Local, sent: seq<Item>, k: nat)
    requires Sendable(file, sent) && k < |sent|
    ensures sent[k] in sent && Uploaded(d, file, sent)[k] == Version(d, sent[k].uuid, SentObj(file, sent[k]))
  {}

  lemma OneMoreUploaded(d: Device, file: Local, sent: seq<Item>, log: seq<Version>)
    requires sent != [] && Sendable(file, sent)
    ensures var n := |sent| - 1;
            && Sendable(file, sent[..n]) && sent[n] in sent
            && log + Uploaded(d, file, sent)
               == log + Uploaded(d, file, sent[..n]) + [Version(d, sent[n].uuid, SentObj(file, sent[n]))]
  {
    var n := |sent| - 1;
    assert sent[n] in sent && forall it | it in sent[..n] :: it in sent;
    assert Uploaded(d, file, sent) == Uploaded(d, file, sent[..n]) + [Version(d, sent[n].uuid, SentObj(file, sent[n]))];
  }

  function PulledDev(dev: Dev, log: seq<Version>): Dev
    requires dev.tracked.lastSeq >= 0
  {
    var r := Pull(dev.tracked, PullEnvOf(dev.file, log, dev.tracked.lastSeq, true));
    dev.(file := MergeOffered(dev.file, log, dev.tracked.lastSeq), tracked := r.tracked.(lastSeq := |log|))
  }

  lemma SentIsSendable(dev: Dev, log: seq<Version>, answers: nat, now: Time)
    ensures forall it | it in PushedDev(dev, log, answers, now).sent :: FromDevice(dev, now, it)
    ensures Sendable(dev.file, PushedDev(dev, log, answers, now).sent)
  {
    PushIsOneRun(dev, now, Consecutive(|log|, answers));
    RunSendsOffered(Start(dev.tracked.states, Consecutive(|log|, answers)), ItemsOf(dev, now));
    ItemsFromDevice(dev, now);
  }

  lemma ExportedGroup(file: Local, it: Item, g: Group)
    requires g in GroupsOf(file) && PutsGroup(it, g)
    ensures it.uuid in file && StoredOf(it) == Stamped(file[it.uuid])
  {
    var k :| 0 <= k < |GroupsOf(file)| && GroupsOf(file)[k] == g;
    assert Walk(file)[k] in Walk(file);
    FormatKeepsTheSecond(g.modifiedAt);
  }

  lemma ExportedEntry(file: Local, it: Item, e: Entry)
    requires e in EntriesOf(file) && PutsEntry(it, e)
    ensures it.uuid in file && StoredOf(it) == Stamped(file[it.uuid])
  {
    var us := SortedSeq(EntryUuids(file));
    var k :| 0 <= k < |us| && EntriesOf(file)[k] == e;
    assert us[k] in us;
    FormatKeepsTheSecond(e.modifiedAt);
  }

  lemma ExportedDeletion(file: Local, it: Item, d: Deletion)
    requires d in DeletionsOf(file) && PutsDeletion(it, d)
    ensures it.uuid in file && StoredOf(it) == Stamped(file[it.uuid])
  {
    var us := SortedSeq(DeadUuids(file));
    var k :| 0 <= k < |us| && DeletionsOf(file)[k] == d;
    assert us[k] in us;
    FormatKeepsTheSecond(d.deletedAt);
  }

  lemma RequestIsItsObject(dev: Dev, it: Item)
    requires IsFrom(ExportOf(dev), it)
    ensures it.uuid in dev.file && StoredOf(it) == Stamped(dev.file[it.uuid])
  {
    var x := ExportOf(dev);
    match it.kind {
      case GroupPut =>
        var g :| g in x.groups && PutsGroup(it, g);
        ExportedGroup(dev.file, it, g);
      case EntryPut =>
        var e :| e in x.entries && PutsEntry(it, e);
        ExportedEntry(dev.file, it, e);
      case EntryTombstone =>
        var d :| d in x.deletions && PutsDeletion(it, d);
        ExportedDeletion(dev.file, it, d);
    }
  }

  /** What the server's readers make of a device's requests is what the device has, with times to the second. */
  lemma StoredIsUploaded(dev: Dev, log: seq<Version>, d: Device, answers: nat, now: Time)
    ensures Sendable(dev.file, PushedDev(dev, log, answers, now).sent)
    ensures Stored(d, PushedDev(dev, log, answers, now).sent) == Uploaded(d, dev.file, PushedDev(dev, log, answers, now).sent)
  {
    var sent := PushedDev(dev, log, answers, now).sent;
    SentIsSendable(dev, log, answers, now);
    forall k | 0 <= k < |sent| ensures StoredOf(sent[k]) == SentObj(dev.file, sent[k]) {
      StoredIsSent(dev, log, answers, now, sent[k]);
    }
  }

  lemma StoredIsSent(dev: Dev, log: seq<Version>, answers: nat, now: Time, it: Item)
    requires it in PushedDev(dev, log, answers, now).sent
    ensures FromDevice(dev, now, it) && StoredOf(it) == SentObj(dev.file, it)
  {
    SentIsSendable(dev, log, answers, now);
    RequestsCarryTheExport(dev.tracked, ExportOf(dev), now, Consecutive(|log|, answers), it);
    if IsFrom(ExportOf(dev), it) {
      RequestIsItsObject(dev, it);
    } else {
      FormatKeepsTheSecond(now);
    }
  }

  /** The server's log after a sync: the requests accepted, as they are read. */
  function LogAfter(dev: Dev, log: seq<Version>, d: Device, answers: nat, now: Time): (r: seq<Version>)
    requires dev.tracked.lastSeq >= 0
    ensures var pulled := PulledDev(dev, log);
            && Sendable(pulled.file, PushedDev(pulled, log, answers, now).sent)
            && r == log + Uploaded(d, pulled.file, PushedDev(pulled, log, answers, now).sent)
  {
    var pulled := PulledDev(dev, log);
    StoredIsUploaded(pulled, log, d, answers, now);
    log + Stored(d, PushedDev(pulled, log, answers, now).sent)
  }

  predicate Tidy(w: World) {
    forall dev | dev in w.devs :: dev.tracked.lastSeq >= 0
  }

  predicate Has(w: World, d: Device) {
    d < |w.devs|
  }

  lemma PullKeepsLastSeq(dev: Dev, log: seq<Version>, mergeOk: bool)
    requires dev.tracked.lastSeq >= 0
    ensures Pull(dev.tracked, PullEnvOf(dev.file, log, dev.tracked.lastSeq, mergeOk)).tracked.lastSeq
         == dev.tracked.lastSeq
  {
    PullTracks(dev.tracked, PullEnvOf(dev.file, log, dev.tracked.lastSeq, mergeOk));
  }

  /** What a failed pull leaves of the device: nothing merged, but what was recorded is recorded. */
  function PullFailed(dev: Dev, log: seq<Version>): Dev
    requires dev.tracked.lastSeq >= 0
  {
    dev.(tracked := Pull(dev.tracked, PullEnvOf(dev.file, log, dev.tracked.lastSeq, false)).tracked)
  }

  /** What a sync leaves of the device. */
  function SyncedDev(dev: Dev, log: seq<Version>, answers: nat, kept: bool, now: Time): Dev
    requires dev.tracked.lastSeq >= 0
  {
    var pulled := PulledDev(dev, log);
    var r := PushedDev(pulled, log, answers, now);
    pulled.(tracked := if !kept then dev.tracked else r.tracked.(lastSeq := Max(|log|, r.maxSeq)))
  }

  function Next(w: World, e: Event): (r: World)
    requires Tidy(w) && Has(w, e.d)
    ensures Tidy(r) && |r.devs| == |w.devs|
  {
    var dev := w.devs[e.d];
    assert dev in w.devs;
    match e
    case Edit(d, u, o) =>
      w.(devs := w.devs[d := dev.(file := dev.file[u := o])], made := w.made + {(u, o)})
    case Drop(d, u, binned) =>
      w.(devs := w.devs[d := dev.(file := dev.file - {u}, bin := if binned then dev.bin + {u} else dev.bin)])
    case PullFails(d, kept) =>
      PullKeepsLastSeq(dev, w.log, false);
      if kept then w.(devs := w.devs[d := PullFailed(dev, w.log)]) else w
    case Sync(d, answers, kept, now) =>
      w.(log := LogAfter(dev, w.log, d, answers, now), devs := w.devs[d := SyncedDev(dev, w.log, answers, kept, now)])
  }

  /** A sync, seen from its device. */
  lemma NextSync(w: World, e: Event)
    requires Tidy(w) && Has(w, e.d) && e.Sync?
    ensures var dev, w' := w.devs[e.d], Next(w, e);
            && dev.tracked.lastSeq >= 0
            && w'.log == LogAfter(dev, w.log, e.d, e.answers, e.now) && w'.made == w.made
            && w'.devs[e.d].file == PulledDev(dev, w.log).file
            && w'.devs[e.d] == SyncedDev(dev, w.log, e.answers, e.kept, e.now)
            && (forall k | 0 <= k < |w.devs| && k != e.d :: w'.devs[k] == w.devs[k])
            && var r := PushedDev(PulledDev(dev, w.log), w.log, e.answers, e.now);
               w'.devs[e.d].tracked == dev.tracked
               || w'.devs[e.d].tracked == r.tracked.(lastSeq := Max(|w.log|, r.maxSeq))
  {
    assert w.devs[e.d] in w.devs;
  }

  // ---------------------------------------------------------------- the model of a pull is the pull

  lemma {:induction false} FineReads(r: Reading, changes: seq<Change>)
    requires r.ok && forall c | c in changes :: c.readable.Fine?
    ensures ReadAll(r, changes).ok
  {
    if changes != [] {
      var n := |changes| - 1;
      assert changes[n] in changes;
      assert forall c | c in changes[..n] :: c in changes;
      FineReads(r, changes[..n]);
    }
  }

  lemma ServerAnswerReads(log: seq<Version>, since: nat, states: States)
    ensures ReadAll(Reading(states, NOTHING, true), ChangesOf(log, since)).ok
  {
    ChangesAreOffered(log, since);
    FineReads(Reading(states, NOTHING, true), ChangesOf(log, since));
  }

  lemma PullOk(dev: Dev, log: seq<Version>)
    requires dev.tracked.lastSeq >= 0
    ensures var r := Pull(dev.tracked, PullEnvOf(dev.file, log, dev.tracked.lastSeq, true)); r.ok && r.newSeq == |log|
  {
    ServerAnswerReads(log, dev.tracked.lastSeq, dev.tracked.states);
  }

  /** What a pull stages of the server's answer: the groups and deletions that are offered. */
  lemma StagedByPull(dev: Dev, log: seq<Version>)
    requires dev.tracked.lastSeq >= 0
    ensures var since := dev.tracked.lastSeq;
            var s := ReadAll(Reading(dev.tracked.states, NOTHING, true), ChangesOf(log, since)).staged;
            && GroupUuids(s.groups) == (set i | i in Offered(log, since) && IsFolder(log[i].obj) :: log[i].uuid)
            && DeletedUuids(s.deletions) == (set i | i in Offered(log, since) && log[i].obj.Dead? :: log[i].uuid)
  {
    var since := dev.tracked.lastSeq;
    var r0, cs := Reading(dev.tracked.states, NOTHING, true), ChangesOf(log, since);
    var s := ReadAll(r0, cs).staged;
    ServerAnswerReads(log, since, dev.tracked.states);
    StagedFrom(r0, cs);
    ReadStages(r0, cs);
    forall u ensures u in GroupUuids(s.groups)
                <==> u in (set i | i in Offered(log, since) && IsFolder(log[i].obj) :: log[i].uuid)
    {
      GroupStaged(log, since, s, u);
    }
    forall u ensures u in DeletedUuids(s.deletions)
                <==> u in (set i | i in Offered(log, since) && log[i].obj.Dead? :: log[i].uuid)
    {
      DeletionStaged(log, since, s, u);
    }
  }

  /** Exactly the groups and the deletions among the changes are staged. */
  ghost predicate StagedExactly(changes: seq<Change>, s: Staged) {
    && (forall g | g in s.groups :: exists c :: c in changes && !c.deleted && c.content == GroupContent(g))
    && (forall d | d in s.deletions :: exists c :: c in changes && c.deleted && d == Deletion(c.uuid, c.modifiedAt))
    && (forall c | c in changes && c.deleted :: Deletion(c.uuid, c.modifiedAt) in s.deletions)
    && (forall c | c in changes && !c.deleted && c.content.GroupContent? :: c.content.group in s.groups)
  }

  lemma GroupStaged(log: seq<Version>, since: nat, s: Staged, u: Uuid)
    requires StagedExactly(ChangesOf(log, since), s)
    ensures u in GroupUuids(s.groups) <==> exists i :: i in Offered(log, since) && IsFolder(log[i].obj) && log[i].uuid == u
  {
    ChangesAreOffered(log, since);
    var cs := ChangesOf(log, since);
    if i :| i in Offered(log, since) && IsFolder(log[i].obj) && log[i].uuid == u {
      ChangeTells(log[i]);
      assert ChangeOf(log[i]) in cs;
    }
    if g :| g in s.groups && g.uuid == u {
      var c :| c in cs && !c.deleted && c.content == GroupContent(g);
      var i :| i in Offered(log, since) && c == ChangeOf(log[i]);
      ChangeTells(log[i]);
    }
  }

  lemma DeletionStaged(log: seq<Version>, since: nat, s: Staged, u: Uuid)
    requires StagedExactly(ChangesOf(log, since), s)
    ensures u in DeletedUuids(s.deletions) <==> exists i :: i in Offered(log, since) && log[i].obj.Dead? && log[i].uuid == u
  {
    ChangesAreOffered(log, since);
    var cs := ChangesOf(log, since);
    if i :| i in Offered(log, since) && log[i].obj.Dead? && log[i].uuid == u {
      ChangeTells(log[i]);
      assert ChangeOf(log[i]) in cs;
    }
    if d :| d in s.deletions && d.uuid == u {
      var c :| c in cs && c.deleted && d == Deletion(c.uuid, c.modifiedAt);
      var i :| i in Offered(log, since) && c == ChangeOf(log[i]);
      ChangeTells(log[i]);
    }
  }

  /** The groups that MergeOffered files by are those of the tree the pull stages. */
  lemma StagedTree(dev: Dev, log: seq<Version>)
    requires dev.tracked.lastSeq >= 0 && Offered(log, dev.tracked.lastSeq) != {}
    ensures GroupUuids(Pull(dev.tracked, PullEnvOf(dev.file, log, dev.tracked.lastSeq, true)).staged.groups)
         == StagedFolders(dev.file, log, dev.tracked.lastSeq)
  {
    var since := dev.tracked.lastSeq;
    var cs := ChangesOf(log, since);
    var s := ReadAll(Reading(dev.tracked.states, NOTHING, true), cs).staged;
    ChangesAreOffered(log, since);
    ServerAnswerReads(log, since, dev.tracked.states);
    StagedByPull(dev, log);
    MergedTreeUuids(GroupsOf(dev.file), s.groups, s.deletions);
    GroupsAreFolders(dev.file);
  }

  // What the merge finds in the staging database.
  function EntryObj(e: StagedEntry): Obj {
    Live(e.modifiedAt, Fragment(e.fragment), e.moved, e.parent)
  }

  function GroupObj(g: Group): Obj {
    Live(g.modifiedAt, Header(g.name, g.notes, g.icon, g.created), g.locationChanged, g.parent)
  }

  ghost predicate Stages(s: Staged, u: Uuid, o: Obj) {
    || (exists e :: e in s.entries && e.uuid == u && EntryObj(e) == o)
    || (exists g :: g in s.groups && g.uuid == u && GroupObj(g) == o)
    || (exists d :: d in s.deletions && d.uuid == u && Dead(d.deletedAt) == o)
  }

  function StagedBy(dev: Dev, log: seq<Version>): Staged
    requires dev.tracked.lastSeq >= 0
  {
    Pull(dev.tracked, PullEnvOf(dev.file, log, dev.tracked.lastSeq, true)).staged
  }

  ghost predicate IsOffered(log: seq<Version>, since: nat, u: Uuid, o: Obj) {
    exists i :: i in Offered(log, since) && log[i].uuid == u && log[i].obj == o
  }

  lemma StagesTheAnswer(dev: Dev, log: seq<Version>)
    requires dev.tracked.lastSeq >= 0
    ensures StagesAll(StagedBy(dev, log), ChangesOf(log, dev.tracked.lastSeq), GroupsOf(dev.file))
  {
    PullOk(dev, log);
    PullStagesEverything(dev.tracked, PullEnvOf(dev.file, log, dev.tracked.lastSeq, true));
  }

  lemma OfferedIsStaged(s: Staged, log: seq<Version>, since: nat, local: seq<Group>, i: nat)
    requires StagesAll(s, ChangesOf(log, since), local) && i in Offered(log, since)
    ensures Stages(s, log[i].uuid, log[i].obj)
  {
    var v := log[i];
    var c := ChangeOf(v);
    ChangesAreOffered(log, since);
    ChangeTells(v);
    assert c in ChangesOf(log, since);
    if v.obj.Dead? {
      assert Deletion(c.uuid, c.modifiedAt) in s.deletions;
    } else if IsFolder(v.obj) {
      var h := Inherit(c.content.group, ByUuid(local));
      assert h.uuid == v.uuid && GroupObj(h) == v.obj;
      NotTombstoned(s, log, since, local, i);
      assert StagesGroup(c, h, local);
      assert h in s.groups;
    } else {
      var e := StagedEntry(v.uuid, v.obj.mod, v.obj.place, v.obj.moved, v.obj.body.text);
      assert StagesEntry(c, e);
      assert e in s.entries && EntryObj(e) == v.obj;
    }
  }

  lemma NotTombstoned(s: Staged, log: seq<Version>, since: nat, local: seq<Group>, i: nat)
    requires StagesAll(s, ChangesOf(log, since), local) && i in Offered(log, since) && log[i].obj.Live?
    ensures log[i].uuid !in DeletedUuids(s.deletions)
  {
    if d :| d in s.deletions && d.uuid == log[i].uuid {
      var c :| c in ChangesOf(log, since) && c.deleted && d == Deletion(c.uuid, c.modifiedAt);
      var j := OfferedFor(log, since, c);
    }
  }

  lemma OfferedFor(log: seq<Version>, since: nat, c: Change) returns (j: nat)
    requires c in ChangesOf(log, since)
    ensures j in Offered(log, since) && c == ChangeOf(log[j]) && c.uuid == log[j].uuid && (c.deleted <==> log[j].obj.Dead?)
  {
    ChangesAreOffered(log, since);
    j :| j in Offered(log, since) && c == ChangeOf(log[j]);
    ChangeTells(log[j]);
  }

  lemma GroupStagedIsOffered(s: Staged, log: seq<Version>, since: nat, file: Local, h: Group)
    requires StagesAll(s, ChangesOf(log, since), GroupsOf(file)) && h in s.groups
    ensures IsOffered(log, since, h.uuid, GroupObj(h)) || (h.uuid in Folders(file) && file[h.uuid] == GroupObj(h))
  {
    if c :| c in ChangesOf(log, since) && StagesGroup(c, h, GroupsOf(file)) {
      var j := OfferedFor(log, since, c);
    } else {
      LocalGroupIs(file, h);
    }
  }

  lemma LocalGroupIs(file: Local, h: Group)
    requires h in GroupsOf(file)
    ensures h.uuid in Folders(file) && file[h.uuid] == GroupObj(h)
  {
    var us := Walk(file);
    var k :| 0 <= k < |GroupsOf(file)| && GroupsOf(file)[k] == h;
    assert us[k] in us;
  }

  lemma StagedIsOffered(s: Staged, log: seq<Version>, since: nat, file: Local, u: Uuid, o: Obj)
    requires StagesAll(s, ChangesOf(log, since), GroupsOf(file)) && Stages(s, u, o)
    ensures IsOffered(log, since, u, o) || (u in Folders(file) && file[u] == o)
  {
    if e :| e in s.entries && e.uuid == u && EntryObj(e) == o {
      var c :| c in ChangesOf(log, since) && StagesEntry(c, e);
      var j := OfferedFor(log, since, c);
    } else if h :| h in s.groups && h.uuid == u && GroupObj(h) == o {
      GroupStagedIsOffered(s, log, since, file, h);
    } else {
      var d :| d in s.deletions && d.uuid == u && Dead(d.deletedAt) == o;
      var c :| c in ChangesOf(log, since) && c.deleted && d == Deletion(c.uuid, c.modifiedAt);
      var j := OfferedFor(log, since, c);
    }
  }

  /**
   The staging database holds exactly the versions offered, as they are on the server, and local groups; and the
   local database after the pull is the merge of what is staged, filed in the groups that are staged.
   */
  lemma MergesWhatIsStaged(dev: Dev, log: seq<Version>, u: Uuid)
    requires dev.tracked.lastSeq >= 0
    ensures var s, file := StagedBy(dev, log), PulledDev(dev, log).file;
            && (forall o | IsOffered(log, dev.tracked.lastSeq, u, o) ::
                  Stages(s, u, o) && u in file && file[u] == MergeInto(dev.file, u, Filed(o, GroupUuids(s.groups))))
            && (forall o | Stages(s, u, o) ::
                  IsOffered(log, dev.tracked.lastSeq, u, o) || (u in Folders(dev.file) && dev.file[u] == o))
            && (!(exists o :: IsOffered(log, dev.tracked.lastSeq, u, o)) ==>
                  (u in file <==> u in dev.file) && (u in dev.file ==> file[u] == dev.file[u]))
  {
    var since, s := dev.tracked.lastSeq, StagedBy(dev, log);
    StagesTheAnswer(dev, log);
    forall o | IsOffered(log, since, u, o)
      ensures Stages(s, u, o) && u in PulledDev(dev, log).file
      ensures PulledDev(dev, log).file[u] == MergeInto(dev.file, u, Filed(o, GroupUuids(s.groups)))
    {
      var i :| i in Offered(log, since) && log[i].uuid == u && log[i].obj == o;
      OfferedIsStaged(s, log, since, GroupsOf(dev.file), i);
      StagedTree(dev, log);
      assert u in OfferedUuids(log, since);
    }
    forall o | Stages(s, u, o) ensures IsOffered(log, since, u, o) || (u in Folders(dev.file) && dev.file[u] == o) {
      StagedIsOffered(s, log, since, dev.file, u, o);
    }
    NotOffered(dev, log, u);
  }

  /** What is new to a device lands in the group it is filed in if that is staged, and else in Root. */
  lemma NewObjectLands(dev: Dev, log: seq<Version>, u: Uuid, o: Obj)
    requires dev.tracked.lastSeq >= 0 && IsOffered(log, dev.tracked.lastSeq, u, o) && u !in dev.file
    ensures u in PulledDev(dev, log).file
    ensures var staged, got := GroupUuids(StagedBy(dev, log).groups), PulledDev(dev, log).file[u];
            if o.Dead? then got == o
            else got.Live? && got.mod == o.mod && got.body == o.body && got.moved == o.moved
                 && got.place == (if o.place.Some? && o.place.value in staged then o.place else None)
  {
    MergesWhatIsStaged(dev, log, u);
  }

  lemma NotOffered(dev: Dev, log: seq<Version>, u: Uuid)
    requires dev.tracked.lastSeq >= 0
    ensures var file := PulledDev(dev, log).file;
            !(exists o :: IsOffered(log, dev.tracked.lastSeq, u, o)) ==>
              (u in file <==> u in dev.file) && (u in dev.file ==> file[u] == dev.file[u])
  {
    var n := Newest(log, u);
    if n.Some? && n.value >= dev.tracked.lastSeq {
      assert n.value in Offered(log, dev.tracked.lastSeq);
      assert IsOffered(log, dev.tracked.lastSeq, u, log[n.value].obj);
    }
  }

  // ---------------------------------------------------------------- there and back

  function VersionOf(d: Device, it: Item): Version {
    Version(d, it.uuid, StoredOf(it))
  }

  /** An entry, group or deletion that is uploaded and pulled is staged as it was exported, to the second. */
  lemma ObjectsComeBack(d: Device, e: Entry, g: Group, x: Deletion)
    ensures Stage(NOTHING, ChangeOf(VersionOf(d, EntryItem(e))))
         == Staged([StagedEntry(e.uuid, Floor(e.modifiedAt), e.parent, e.locationChanged, e.fragment)], [], [])
    ensures Stage(NOTHING, ChangeOf(VersionOf(d, GroupItem(g))))
         == Staged([], [g.(modifiedAt := Floor(g.modifiedAt), searching := None)], [])
    ensures Stage(NOTHING, ChangeOf(VersionOf(d, DeletionItem(x))))
         == Staged([], [], [Deletion(x.uuid, Floor(x.deletedAt))])
  {}

  /** A pull forgets exactly the known groups that are reported deleted. */
  lemma KnownAfterPull(dev: Dev, log: seq<Version>, u: Uuid)
    requires dev.tracked.lastSeq >= 0
    ensures u in PulledDev(dev, log).tracked.known
       <==> u in dev.tracked.known
            && !exists i :: i in Offered(log, dev.tracked.lastSeq) && log[i].obj.Dead? && log[i].uuid == u
  {
    StagedByPull(dev, log);
    ServerAnswerReads(log, dev.tracked.lastSeq, dev.tracked.states);
    ChangesAreOffered(log, dev.tracked.lastSeq);
  }

  ghost predicate WholeLog(log: seq<Version>) {
    forall i | 0 <= i < |log| :: Whole(log[i].obj.mod)
  }

  /** What the answer reports about an object: the second of its newest version, when that is after `since`. */
  lemma ReportedByServer(log: seq<Version>, since: nat, u: Uuid, t: Time)
    ensures Reported(ChangesOf(log, since), u, t)
       <==> InLog(log, u) && since <= Newest(log, u).value && t <= Floor(Latest(log, u).mod)
  {
    var cs := ChangesOf(log, since);
    ChangesAreOffered(log, since);
    if Reported(cs, u, t) {
      var c :| c in cs && c.uuid == u && Floor(c.modifiedAt) >= t;
      var i :| i in Offered(log, since) && c == ChangeOf(log[i]);
      ChangeTells(log[i]);
    }
    if InLog(log, u) && since <= Newest(log, u).value && t <= Floor(Latest(log, u).mod) {
      var i := Newest(log, u).value;
      ChangeTells(log[i]);
      assert i in Offered(log, since);
      assert ChangeOf(log[i]) in cs;
    }
  }

  lemma ChangeTells(v: Version)
    ensures var c := ChangeOf(v);
            && c.uuid == v.uuid && c.modifiedAt == v.obj.mod && c.deleted == v.obj.Dead? && c.readable.Fine?
            && (!c.deleted ==> (c.content.GroupContent? <==> IsFolder(v.obj)))
            && (IsFolder(v.obj) ==> c.content.group.uuid == v.uuid)
  {}

  /** Reading the server's answer raises the states to its seconds exactly, whether the merge then succeeds or not. */
  lemma PullReadsSeconds(dev: Dev, log: seq<Version>, mergeOk: bool)
    requires dev.tracked.lastSeq >= 0
    ensures var t := dev.tracked;
            var states := Pull(t, PullEnvOf(dev.file, log, t.lastSeq, mergeOk)).tracked.states;
            forall u, s :: AtLeast(states, u, s) <==>
              AtLeast(t.states, u, s)
              || (InLog(log, u) && t.lastSeq <= Newest(log, u).value && s <= Floor(Latest(log, u).mod))
  {
    var t := dev.tracked;
    var cs := ChangesOf(log, t.lastSeq);
    ServerAnswerReads(log, t.lastSeq, t.states);
    ReadRaises(Reading(t.states, NOTHING, true), cs);
    forall u, s ensures Reported(cs, u, s) <==>
        InLog(log, u) && t.lastSeq <= Newest(log, u).value && s <= Floor(Latest(log, u).mod)
    {
      ReportedByServer(log, t.lastSeq, u, s);
    }
  }

  lemma PullReads(dev: Dev, log: seq<Version>, mergeOk: bool)
    requires WholeLog(log) && dev.tracked.lastSeq >= 0
    ensures var t := dev.tracked;
            var states := Pull(t, PullEnvOf(dev.file, log, t.lastSeq, mergeOk)).tracked.states;
            forall u, s :: AtLeast(states, u, s) <==>
              AtLeast(t.states, u, s)
              || (InLog(log, u) && t.lastSeq <= Newest(log, u).value && s <= Latest(log, u).mod)
  {
    PullReadsSeconds(dev, log, mergeOk);
    forall u | InLog(log, u) ensures Floor(Latest(log, u).mod) == Latest(log, u).mod {
      FloorIsLastSecond(Latest(log, u).mod, Latest(log, u).mod);
    }
  }

  /**
   The step is the sync command: its tracking state is what Commands.ConfigFile.RunSync stores, given the
   server's answer to the pull, the export of the merged file, the server's answers to the uploads and whether the
   config can be saved.
   */
  lemma SyncIsTheCommand(w: World, d: Device, answers: nat, now: Time, saveOk: bool)
    requires Tidy(w) && Has(w, d)
    ensures var dev := w.devs[d];
            && dev in w.devs && Pull(dev.tracked, PullEnvOf(dev.file, w.log, dev.tracked.lastSeq, true)).ok
            && var env := PullEnvOf(dev.file, w.log, dev.tracked.lastSeq, true);
               var pulled := Commands.After(dev.tracked, Commands.Pulled(env, true));
               var push := Commands.Pushed(ExportOf(PulledDev(dev, w.log)), now, Consecutive(|w.log|, answers), true);
               var ok := !Push(pulled, push.x, now, push.replies).failed && saveOk;
               Next(w, Sync(d, answers, ok, now)).devs[d].tracked == if ok then Commands.After(pulled, push) else dev.tracked
  {
    assert w.devs[d] in w.devs;
    PullOk(w.devs[d], w.log);
    PullIsTheCommand(w.devs[d], w.log);
    PushIsTheCommand(PulledDev(w.devs[d], w.log), w.log, answers, now);
    var ok := !PushedDev(PulledDev(w.devs[d], w.log), w.log, answers, now).failed && saveOk;
    NextSync(w, Sync(d, answers, ok, now));
    SyncedTracked(w.devs[d], w.log, answers, now, ok);
  }

  lemma SyncedTracked(dev: Dev, log: seq<Version>, answers: nat, now: Time, kept: bool)
    requires dev.tracked.lastSeq >= 0
    ensures var r := PushedDev(PulledDev(dev, log), log, answers, now);
            SyncedDev(dev, log, answers, kept, now).tracked
            == if kept then r.tracked.(lastSeq := Max(|log|, r.maxSeq)) else dev.tracked
  {}

  /** A failed pull is the pull of a cycle or command, with no answer if nothing is offered, and else a merge that fails. */
  lemma FailedPullIsTheCommand(w: World, d: Device, kept: bool)
    requires Tidy(w) && Has(w, d)
    ensures var dev := w.devs[d];
            && dev in w.devs
            && var env := PullEnvOf(dev.file, w.log, dev.tracked.lastSeq, false);
               var failed := if env.response.value.changes == [] then env.(response := None) else env;
               && !Pull(dev.tracked, failed).ok
               && Next(w, PullFails(d, kept)).devs[d].tracked == Commands.After(dev.tracked, Commands.Pulled(failed, kept))
               && Next(w, PullFails(d, kept)).devs[d].file == dev.file && Next(w, PullFails(d, kept)).log == w.log
  {
    assert w.devs[d] in w.devs;
    PullKeepsLastSeq(w.devs[d], w.log, false);
    ServerAnswerReads(w.log, w.devs[d].tracked.lastSeq, w.devs[d].tracked.states);
  }

  lemma PullIsTheCommand(dev: Dev, log: seq<Version>)
    requires dev.tracked.lastSeq >= 0
    ensures Commands.After(dev.tracked, Commands.Pulled(PullEnvOf(dev.file, log, dev.tracked.lastSeq, true), true))
         == PulledDev(dev, log).tracked
  {
    PullOk(dev, log);
  }

  lemma PushIsTheCommand(pulled: Dev, log: seq<Version>, answers: nat, now: Time)
    requires pulled.tracked.lastSeq == |log|
    ensures var push := Commands.Pushed(ExportOf(pulled), now, Consecutive(|log|, answers), true);
            var r := PushedDev(pulled, log, answers, now);
            && r.failed == Push(pulled.tracked, push.x, now, push.replies).failed
            && Commands.After(pulled.tracked, push) == r.tracked.(lastSeq := Max(|log|, r.maxSeq))
  {}

  // ---------------------------------------------------------------- rounds of complete cycles

  // One device's turn, at some time of its clock.
  datatype Turn = Turn(device: Device, now: Time)

  /** A sync with as many answers as the device could possibly need. */
  function FullSync(w: World, t: Turn): Event
    requires Tidy(w) && Has(w, t.device)
  {
    assert w.devs[t.device] in w.devs;
    Sync(t.device, |ItemsOf(PulledDev(w.devs[t.device], w.log), t.now)|, true, t.now)
  }

  /** A device syncs without failures. */
  function FullNext(w: World, t: Turn): (r: World)
    requires Tidy(w) && Has(w, t.device)
    ensures Tidy(r) && |r.devs| == |w.devs|
  {
    Next(w, FullSync(w, t))
  }

  predicate AllIn(w: World, turns: seq<Turn>) {
    forall k | 0 <= k < |turns| :: turns[k].device < |w.devs|
  }

  predicate HasTurn(turns: seq<Turn>, d: Device) {
    exists k :: 0 <= k < |turns| && turns[k].device == d
  }

  predicate EveryoneIn(w: World, turns: seq<Turn>) {
    AllIn(w, turns) && forall d | 0 <= d < |w.devs| :: HasTurn(turns, d)
  }

  /** The devices of a round sync one after the other, without failures. */
  function Round(w: World, turns: seq<Turn>): (r: World)
    requires Tidy(w) && AllIn(w, turns)
    ensures Tidy(r) && |r.devs| == |w.devs|
    decreases |turns|
  {
    if turns == [] then w else Round(FullNext(w, turns[0]), turns[1..])
  }

  /** Every turn keeps `inv`, gives the device whose turn it is `bit`, and takes it from nobody. */
  ghost predicate Carries(inv: World -> bool, bit: (World, Device) -> bool) {
    forall w, t: Turn | Tidy(w) && Has(w, t.device) && inv(w) ::
      && inv(FullNext(w, t)) && bit(FullNext(w, t), t.device)
      && forall x | bit(w, x) :: bit(FullNext(w, t), x)
  }

  lemma {:induction false} RoundCarries(w: World, turns: seq<Turn>, inv: World -> bool, bit: (World, Device) -> bool,
                                        d: Device)
    requires Tidy(w) && AllIn(w, turns) && inv(w) && Carries(inv, bit)
    ensures inv(Round(w, turns))
    ensures HasTurn(turns, d) || bit(w, d) ==> bit(Round(w, turns), d)
    decreases |turns|
  {
    if turns != [] {
      RoundCarries(FullNext(w, turns[0]), turns[1..], inv, bit, d);
      FirstTurn(turns, d);
    }
  }

  lemma FirstTurn(turns: seq<Turn>, d: Device)
    requires turns != []
    ensures HasTurn(turns, d) ==> turns[0].device == d || HasTurn(turns[1..], d)
  {
    if HasTurn(turns, d) && turns[0].device != d {
      var k :| 0 <= k < |turns| && turns[k].device == d;
      assert turns[1..][k - 1].device == d;
    }
  }

  /** A round with everyone in it gives everyone what its turns carry. */
  lemma RoundOfAll(w: World, turns: seq<Turn>, inv: World -> bool, bit: (World, Device) -> bool)
    requires Tidy(w) && EveryoneIn(w, turns) && inv(w) && Carries(inv, bit)
    ensures inv(Round(w, turns)) && forall d | 0 <= d < |w.devs| :: bit(Round(w, turns), d)
  {
    RoundCarries(w, turns, inv, bit, 0);
    forall d | 0 <= d < |w.devs| ensures bit(Round(w, turns), d) {
      RoundCarries(w, turns, inv, bit, d);
    }
  }
}
