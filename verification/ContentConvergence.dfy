/**
 Convergence of content with no assumption on where objects are filed: devices may move entries and groups at
 any time, concurrently with edits elsewhere. What each object holds, and whether it is deleted, converges to
 the second all the same. (Where it is filed need not: see Moves.OvertakenMoveIsNeverUploaded.)
 */
module ContentConvergence {
  import opened Basics
  import opened Tracking
  import opened GroupTree
  import opened PushSide
  import opened PullSide
  import opened Server
  import opened Devices
  import opened Moves

  // What an object holds, wherever it is filed.
  datatype Content = Holding(body: Body) | Deleted

  function ContentOf(o: Obj): Content {
    if o.Live? then Holding(o.body) else Deleted
  }

  /** The second an object was last modified in: all the server learns of the time. */
  function Second(o: Obj): Time {
    Floor(o.mod)
  }

  // ---------------------------------------------------------------- hypotheses

  /** No two contents of an object share the second of their modification. */
  ghost predicate Authentic(content: (Uuid, Time) -> Content, u: Uuid, o: Obj) {
    ContentOf(o) == content(u, Second(o))
  }

  ghost predicate AuthenticFile(content: (Uuid, Time) -> Content, file: Local) {
    forall u | u in file :: Authentic(content, u, file[u])
  }

  ghost predicate AuthenticLog(content: (Uuid, Time) -> Content, log: seq<Version>) {
    forall i | 0 <= i < |log| :: Authentic(content, log[i].uuid, log[i].obj)
  }

  /** What is a group is always one: none is deleted. */
  ghost predicate GroupsStay(content: (Uuid, Time) -> Content) {
    forall u, s, t :: content(u, s).Holding? && content(u, s).body.Header? ==>
                        content(u, t).Holding? && content(u, t).body.Header?
  }

  /** A move changes the place of a live object and nothing else. */
  predicate IsMove(file: Local, u: Uuid, o: Obj) {
    u in file && file[u].Live? && o.Live? && o.mod == file[u].mod && o.body == file[u].body
  }

  /** A change of content raises the second of the local modification. */
  predicate IsChange(file: Local, u: Uuid, o: Obj) {
    u in file ==> Second(file[u]) < Second(o)
  }

  /** The server holds the object as of second `t`, or later. */
  ghost predicate ServerHas(log: seq<Version>, u: Uuid, t: Time) {
    InLog(log, u) && t <= Second(Latest(log, u))
  }

  /**
   The edit is later than the time the device has recorded for the object, unless the server's version wins
   over it anyway. (EditArrivesIff: otherwise the next cycle does not deliver it.)
   */
  ghost predicate Noticed(w: World, d: Device, u: Uuid, o: Obj)
    requires Has(w, d)
  {
    AtLeast(w.devs[d].tracked.states, u, Trigger(o)) ==> ServerHas(w.log, u, Second(o))
  }

  ghost predicate Permitted(w: World, e: Event, content: (Uuid, Time) -> Content) {
    && Has(w, e.d)
    && match e
       case Edit(d, u, o) =>
         Authentic(content, u, o) && (IsMove(w.devs[d].file, u, o) || IsChange(w.devs[d].file, u, o)) && Noticed(w, d, u, o)
       case Drop(_, _, _) => false
       case PullFails(_, _) => true
       case Sync(_, _, _, _) => true
  }

  // ---------------------------------------------------------------- the invariant

  /** The server's versions of an object never go back in modification time. */
  ghost predicate NotFalling(log: seq<Version>) {
    forall i, j | 0 <= i < j < |log| && log[i].uuid == log[j].uuid :: Second(log[i].obj) <= Second(log[j].obj)
  }

  /** What the device was given before is in its file, or something later. */
  ghost predicate Received(dev: Dev, log: seq<Version>) {
    forall u | InLog(log, u) && Newest(log, u).value < dev.tracked.lastSeq ::
      u in dev.file && Second(Latest(log, u)) <= Second(dev.file[u])
  }

  /** Content the server lacks is later than the recorded time, so a push will send it. */
  ghost predicate NewsIsDue(dev: Dev, log: seq<Version>) {
    forall u | u in dev.file && !ServerHas(log, u, Second(dev.file[u])) ::
      !AtLeast(dev.tracked.states, u, Trigger(dev.file[u]))
  }

  ghost predicate Sound(dev: Dev, log: seq<Version>, content: (Uuid, Time) -> Content) {
    && 0 <= dev.tracked.lastSeq <= |log| && KnownHere(dev)
    && AuthenticFile(content, dev.file) && Received(dev, log) && NewsIsDue(dev, log)
  }

  /** No version ever made has been lost: the server or some device has it, or something later. */
  ghost predicate Held(w: World, u: Uuid, t: Time) {
    ServerHas(w.log, u, t) || exists d :: 0 <= d < |w.devs| && u in w.devs[d].file && t <= Second(w.devs[d].file[u])
  }

  ghost predicate AllHeld(w: World) {
    forall m | m in w.made :: Held(w, m.0, Second(m.1))
  }

  ghost predicate SoundWorld(w: World, content: (Uuid, Time) -> Content) {
    && GroupsStay(content) && AuthenticLog(content, w.log) && NotFalling(w.log)
    && (forall d | 0 <= d < |w.devs| :: Sound(w.devs[d], w.log, content))
    && AllHeld(w) && FromMade(w)
  }

  ghost predicate WasMade(made: set<(Uuid, Obj)>, u: Uuid, t: Time) {
    exists m :: m in made && m.0 == u && Second(m.1) == t
  }

  ghost predicate MadeFile(file: Local, made: set<(Uuid, Obj)>) {
    forall u | u in file :: WasMade(made, u, Second(file[u]))
  }

  ghost predicate MadeLog(log: seq<Version>, made: set<(Uuid, Obj)>) {
    forall i | 0 <= i < |log| :: WasMade(made, log[i].uuid, Second(log[i].obj))
  }

  /** Every modification time anywhere is that of a version someone made. */
  ghost predicate FromMade(w: World) {
    (forall d | 0 <= d < |w.devs| :: MadeFile(w.devs[d].file, w.made)) && MadeLog(w.log, w.made)
  }

  lemma StampedSecond(o: Obj)
    ensures Second(Stamped(o)) == Second(o) && ContentOf(Stamped(o)) == ContentOf(o)
  {
    FloorIsLastSecond(o.mod, o.mod);
    FloorIsLastSecond(Floor(o.mod), Floor(o.mod));
  }

  /** What a merge makes of two versions: the content of the later, and no earlier a trigger. */
  lemma MergeSecond(mine: Obj, theirs: Obj, folders: set<Uuid>)
    ensures var m := Merge(mine, Filed(theirs, folders));
            && Second(m) == Max(Second(mine), Second(theirs))
            && ((ContentOf(m) == ContentOf(mine) && m.mod == mine.mod)
                || (ContentOf(m) == ContentOf(theirs) && m.mod == theirs.mod))
            && (Second(theirs) < Second(mine) ==> Trigger(m) >= Trigger(mine))
  {
    FloorIsLastSecond(mine.mod, theirs.mod);
    FloorIsLastSecond(theirs.mod, mine.mod);
  }

  lemma PulledFromMade(file: Local, log: seq<Version>, since: nat, made: set<(Uuid, Obj)>)
    requires MadeFile(file, made) && MadeLog(log, made)
    ensures MadeFile(MergeOffered(file, log, since), made)
  {
    var r := MergeOffered(file, log, since);
    forall u | u in r ensures WasMade(made, u, Second(r[u])) {
      var n := Newest(log, u);
      if n.Some? && n.value >= since {
        assert WasMade(made, log[n.value].uuid, Second(log[n.value].obj));
        if u in file {
          MergeSecond(file[u], log[n.value].obj, StagedFolders(file, log, since));
        }
      }
    }
  }

  predicate FromFile(file: Local, sent: seq<Item>) {
    forall it | it in sent :: !it.kind.GroupTombstone? && it.uuid in file
  }

  lemma UploadedFromMade(log: seq<Version>, d: Device, file: Local, sent: seq<Item>, made: set<(Uuid, Obj)>)
    requires FromFile(file, sent) && MadeFile(file, made) && MadeLog(log, made)
    ensures MadeLog(log + Uploaded(d, file, sent), made)
  {
    var up := Uploaded(d, file, sent);
    forall i | 0 <= i < |log + up| ensures WasMade(made, (log + up)[i].uuid, Second((log + up)[i].obj)) {
      if i >= |log| {
        var it := sent[i - |log|];
        assert it in sent && up[i - |log|].obj == Stamped(file[it.uuid]);
        StampedSecond(file[it.uuid]);
      }
    }
  }

  lemma EditIsFromMade(w: World, e: Event)
    requires Tidy(w) && Has(w, e.d) && e.Edit? && FromMade(w)
    ensures FromMade(Next(w, e))
  {
    var w' := Next(w, e);
    assert (e.u, e.o) in w'.made && w.made <= w'.made;
    forall k | 0 <= k < |w'.devs| ensures MadeFile(w'.devs[k].file, w'.made) {
      forall u | u in w'.devs[k].file ensures WasMade(w'.made, u, Second(w'.devs[k].file[u])) {
        if u in w.devs[k].file && w'.devs[k].file[u] == w.devs[k].file[u] {
          assert WasMade(w.made, u, Second(w.devs[k].file[u]));
        }
      }
    }
    forall i | 0 <= i < |w.log| ensures WasMade(w'.made, w.log[i].uuid, Second(w.log[i].obj)) {
      assert WasMade(w.made, w.log[i].uuid, Second(w.log[i].obj));
    }
  }

  /** A longer log has at least as recent a version of everything. */
  lemma ServerKeeps(log: seq<Version>, log': seq<Version>, u: Uuid, t: Time)
    requires log <= log' && NotFalling(log') && ServerHas(log, u, t)
    ensures ServerHas(log', u, t)
  {
    var n, n' := Newest(log, u).value, Newest(log', u).value;
    assert log'[n] == log[n];
  }

  lemma SoundInLongerLog(dev: Dev, log: seq<Version>, log': seq<Version>, content: (Uuid, Time) -> Content)
    requires Sound(dev, log, content) && log <= log' && NotFalling(log')
    ensures Sound(dev, log', content)
  {
    forall u | u in dev.file && !ServerHas(log', u, Second(dev.file[u]))
      ensures !AtLeast(dev.tracked.states, u, Trigger(dev.file[u]))
    {
      if ServerHas(log, u, Second(dev.file[u])) {
        ServerKeeps(log, log', u, Second(dev.file[u]));
      }
    }
    forall u | InLog(log', u) && Newest(log', u).value < dev.tracked.lastSeq
      ensures u in dev.file && Second(Latest(log', u)) <= Second(dev.file[u])
    {
      var n := Newest(log', u).value;
      assert log'[n] == log[n];
      assert Newest(log, u).value == n by {
        assert log'[Newest(log, u).value] == log[Newest(log, u).value];
      }
    }
  }

  // ---------------------------------------------------------------- the pull half

  /** A pull records nothing later than the server's newest versions. */
  lemma PullRecordsNoMore(dev: Dev, log: seq<Version>, mergeOk: bool, u: Uuid, s: Time)
    requires dev.tracked.lastSeq >= 0
    requires AtLeast(Pull(dev.tracked, PullEnvOf(dev.file, log, dev.tracked.lastSeq, mergeOk)).tracked.states, u, s)
    ensures AtLeast(dev.tracked.states, u, s) || ServerHas(log, u, s)
  {
    PullReadsSeconds(dev, log, mergeOk);
  }

  /** One object after a pull. */
  lemma PulledOne(dev: Dev, log: seq<Version>, content: (Uuid, Time) -> Content, u: Uuid)
    requires AuthenticLog(content, log) && Sound(dev, log, content)
    ensures var file := MergeOffered(dev.file, log, dev.tracked.lastSeq);
            && (u in dev.file ==> u in file && Second(dev.file[u]) <= Second(file[u]))
            && (InLog(log, u) ==> u in file && Second(Latest(log, u)) <= Second(file[u]))
            && (u in file ==> Authentic(content, u, file[u]))
            && (u in file ==> ServerHas(log, u, Second(file[u]))
                              || (u in dev.file && Second(file[u]) == Second(dev.file[u])
                                  && Trigger(dev.file[u]) <= Trigger(file[u])))
  {
    var since := dev.tracked.lastSeq;
    var n := Newest(log, u);
    if n.Some? && n.value >= since {
      assert n.value in Offered(log, since) && u in OfferedUuids(log, since);
      assert Authentic(content, log[n.value].uuid, log[n.value].obj);
      if u in dev.file {
        MergeSecond(dev.file[u], log[n.value].obj, StagedFolders(dev.file, log, since));
      }
    }
  }

  ghost predicate Holds(file: Local, log: seq<Version>) {
    forall u | InLog(log, u) :: u in file && Second(Latest(log, u)) <= Second(file[u])
  }

  /** What is due before a pull is due after it, with the old tracking state or the new. */
  lemma StaysDue(dev: Dev, log: seq<Version>, content: (Uuid, Time) -> Content, u: Uuid)
    requires AuthenticLog(content, log) && Sound(dev, log, content)
    requires u in PulledDev(dev, log).file && !ServerHas(log, u, Second(PulledDev(dev, log).file[u]))
    ensures var p := PulledDev(dev, log);
            && !AtLeast(p.tracked.states, u, Trigger(p.file[u])) && !AtLeast(dev.tracked.states, u, Trigger(p.file[u]))
  {
    var p := PulledDev(dev, log);
    PulledOne(dev, log, content, u);
    FloorIsLastSecond(p.file[u].mod, p.file[u].mod);
    if AtLeast(p.tracked.states, u, Trigger(p.file[u])) {
      PullRecordsNoMore(dev, log, true, u, Trigger(p.file[u]));
    }
  }

  lemma AuthenticFolder(content: (Uuid, Time) -> Content, u: Uuid, a: Obj, b: Obj)
    requires GroupsStay(content) && Authentic(content, u, a) && Authentic(content, u, b) && IsFolder(a)
    ensures IsFolder(b)
  {}

  lemma AfterPullSound(dev: Dev, log: seq<Version>, content: (Uuid, Time) -> Content)
    requires GroupsStay(content) && AuthenticLog(content, log) && Sound(dev, log, content)
    ensures var p := PulledDev(dev, log);
            && Sound(p, log, content) && Holds(p.file, log)
            && Sound(p.(tracked := dev.tracked), log, content)
            && (forall u | u in dev.file :: u in p.file && Second(dev.file[u]) <= Second(p.file[u]))
  {
    var p := PulledDev(dev, log);
    forall u ensures u in dev.file ==> u in p.file && Second(dev.file[u]) <= Second(p.file[u])
             ensures InLog(log, u) ==> u in p.file && Second(Latest(log, u)) <= Second(p.file[u])
             ensures u in p.file ==> Authentic(content, u, p.file[u])
    {
      PulledOne(dev, log, content, u);
    }
    forall u | u in p.file && !ServerHas(log, u, Second(p.file[u]))
      ensures !AtLeast(p.tracked.states, u, Trigger(p.file[u])) && !AtLeast(dev.tracked.states, u, Trigger(p.file[u]))
    {
      StaysDue(dev, log, content, u);
    }
    forall u | u in dev.tracked.known ensures u in Folders(p.file) {
      AuthenticFolder(content, u, dev.file[u], p.file[u]);
    }
    forall u | u in p.tracked.known ensures u in dev.tracked.known {
      KnownAfterPull(dev, log, u);
    }
  }

  // ---------------------------------------------------------------- the push half

  /** What a push, complete or not, leaves, when no known group is missing. */
  lemma PushTracksAll(dev: Dev, log: seq<Version>, answers: nat, now: Time, u: Uuid)
    requires KnownHere(dev)
    ensures var r := PushedDev(dev, log, answers, now);
            && (!Sends(r.sent, u) ==> forall t :: AtLeast(r.tracked.states, u, t) <==> AtLeast(dev.tracked.states, u, t))
            && Max(|log|, r.maxSeq) == |log| + |r.sent|
            && (forall k | k in r.tracked.known :: k in Folders(dev.file))
            && FromFile(dev.file, r.sent)
  {
    PushTracks(dev, log, answers, now, u);
    NoTombs(dev, now);
    PushIsOneRun(dev, now, Consecutive(|log|, answers));
    RunSendsOffered(Start(dev.tracked.states, Consecutive(|log|, answers)), ItemsOf(dev, now));
  }

  lemma {:induction false} UploadsDoNotFall(log: seq<Version>, d: Device, file: Local, sent: seq<Item>,
                                            content: (Uuid, Time) -> Content)
    requires FromFile(file, sent)
    requires NotFalling(log) && AuthenticLog(content, log) && AuthenticFile(content, file) && Holds(file, log)
    ensures var log' := log + Uploaded(d, file, sent);
            NotFalling(log') && AuthenticLog(content, log') && Holds(file, log')
  {
    if sent == [] {
      assert log + Uploaded(d, file, sent) == log;
    } else {
      var n := |sent| - 1;
      OneMoreUploaded(d, file, sent, log);
      UploadsDoNotFall(log, d, file, sent[..n], content);
      OneMoreUpload(log + Uploaded(d, file, sent[..n]), Version(d, sent[n].uuid, SentObj(file, sent[n])), file, content);
    }
  }

  lemma OneMoreUpload(log: seq<Version>, v: Version, file: Local, content: (Uuid, Time) -> Content)
    requires NotFalling(log) && AuthenticLog(content, log) && AuthenticFile(content, file) && Holds(file, log)
    requires v.uuid in file && v.obj == Stamped(file[v.uuid])
    ensures NotFalling(log + [v]) && AuthenticLog(content, log + [v]) && Holds(file, log + [v])
  {
    StampedSecond(file[v.uuid]);
    forall i | 0 <= i < |log| && log[i].uuid == v.uuid ensures Second(log[i].obj) <= Second(v.obj) {
      var n := Newest(log, v.uuid).value;
      assert i == n || Second(log[i].obj) <= Second(log[n].obj);
      assert Second(Latest(log, v.uuid)) <= Second(file[v.uuid]);
    }
    forall u | InLog(log + [v], u) ensures u in file && Second(Latest(log + [v], u)) <= Second(file[u]) {
      NewestAppend(log, v, u);
    }
  }

  /** A whole sync, complete or not, on its device and on the log. */
  lemma SyncSound(dev: Dev, log: seq<Version>, d: Device, answers: nat, now: Time, content: (Uuid, Time) -> Content)
    requires GroupsStay(content) && AuthenticLog(content, log) && NotFalling(log) && Sound(dev, log, content)
    ensures var pulled, log' := PulledDev(dev, log), LogAfter(dev, log, d, answers, now);
            var r := PushedDev(pulled, log, answers, now);
            && log <= log' && NotFalling(log') && AuthenticLog(content, log') && Holds(pulled.file, log')
            && Sound(pulled.(tracked := r.tracked.(lastSeq := Max(|log|, r.maxSeq))), log', content)
            && Sound(pulled.(tracked := dev.tracked), log', content)
  {
    var pulled := PulledDev(dev, log);
    AfterPullSound(dev, log, content);
    SentIsSendable(pulled, log, answers, now);
    var r := PushedDev(pulled, log, answers, now);
    var log' := LogAfter(dev, log, d, answers, now);
    PushTracksAll(pulled, log, answers, now, 0);
    UploadsDoNotFall(log, d, pulled.file, r.sent, content);
    SoundInLongerLog(pulled.(tracked := dev.tracked), log, log', content);
    forall u | u in pulled.file && !ServerHas(log', u, Second(pulled.file[u]))
      ensures !AtLeast(r.tracked.states, u, Trigger(pulled.file[u]))
    {
      UnsentStaysDue(pulled, log, d, answers, now, content, u);
    }
  }

  lemma UnsentStaysDue(dev: Dev, log: seq<Version>, d: Device, answers: nat, now: Time,
                       content: (Uuid, Time) -> Content, u: Uuid)
    requires Sound(dev, log, content) && NotFalling(log) && u in dev.file
    requires Sendable(dev.file, PushedDev(dev, log, answers, now).sent)
    requires !ServerHas(log + Uploaded(d, dev.file, PushedDev(dev, log, answers, now).sent), u, Second(dev.file[u]))
    ensures !AtLeast(PushedDev(dev, log, answers, now).tracked.states, u, Trigger(dev.file[u]))
  {
    var sent := PushedDev(dev, log, answers, now).sent;
    SentAsItIs(dev, log, answers, now, u);
    NewestAfterUploads(log, d, dev.file, sent, u, Stamped(dev.file[u]));
    StampedSecond(dev.file[u]);
    PushTracksAll(dev, log, answers, now, u);
  }

  /** A sync that goes through leaves the server with all the content of the file. */
  lemma FullSyncSends(dev: Dev, log: seq<Version>, d: Device, answers: nat, now: Time,
                      content: (Uuid, Time) -> Content, u: Uuid)
    requires GroupsStay(content) && AuthenticLog(content, log) && NotFalling(log) && Sound(dev, log, content)
    requires answers >= |ItemsOf(PulledDev(dev, log), now)| && u in PulledDev(dev, log).file
    ensures ServerHas(LogAfter(dev, log, d, answers, now), u, Second(PulledDev(dev, log).file[u]))
  {
    AfterPullSound(dev, log, content);
    SyncSound(dev, log, d, answers, now, content);
    CycleOnOne(dev, log, d, answers, now, u);
    var pulled := PulledDev(dev, log);
    StampedSecond(pulled.file[u]);
    NotDueIsOnServer(pulled, log, content, u);
    if AtLeast(pulled.tracked.states, u, Trigger(pulled.file[u])) {
      ServerKeeps(log, LogAfter(dev, log, d, answers, now), u, Second(pulled.file[u]));
    }
  }

  lemma NotDueIsOnServer(dev: Dev, log: seq<Version>, content: (Uuid, Time) -> Content, u: Uuid)
    requires Sound(dev, log, content) && u in dev.file
    ensures AtLeast(dev.tracked.states, u, Trigger(dev.file[u])) ==> ServerHas(log, u, Second(dev.file[u]))
  {}

  // ---------------------------------------------------------------- steps

  lemma HeldInLongerLog(w: World, w': World, d: Device)
    requires w.log <= w'.log && NotFalling(w'.log) && w'.made == w.made && |w'.devs| == |w.devs| && d < |w.devs|
    requires forall k | 0 <= k < |w.devs| && k != d :: w'.devs[k].file == w.devs[k].file
    requires forall u | u in w.devs[d].file :: u in w'.devs[d].file && Second(w.devs[d].file[u]) <= Second(w'.devs[d].file[u])
    requires AllHeld(w)
    ensures AllHeld(w')
  {
    forall m | m in w'.made ensures Held(w', m.0, Second(m.1)) {
      assert Held(w, m.0, Second(m.1));
      if ServerHas(w.log, m.0, Second(m.1)) {
        ServerKeeps(w.log, w'.log, m.0, Second(m.1));
      } else {
        var k :| 0 <= k < |w.devs| && m.0 in w.devs[k].file && Second(m.1) <= Second(w.devs[k].file[m.0]);
        assert m.0 in w'.devs[k].file && Second(m.1) <= Second(w'.devs[k].file[m.0]);
      }
    }
  }

  lemma SyncIsFromMade(w: World, e: Event, content: (Uuid, Time) -> Content)
    requires SoundWorld(w, content) && Tidy(w) && e.Sync? && Has(w, e.d)
    ensures FromMade(Next(w, e))
  {
    var dev := w.devs[e.d];
    var pulled := PulledDev(dev, w.log);
    NextSync(w, e);
    AfterPullSound(dev, w.log, content);
    PulledFromMade(dev.file, w.log, dev.tracked.lastSeq, w.made);
    SentIsSendable(pulled, w.log, e.answers, e.now);
    PushTracksAll(pulled, w.log, e.answers, e.now, 0);
    UploadedFromMade(w.log, e.d, pulled.file, PushedDev(pulled, w.log, e.answers, e.now).sent, w.made);
  }

  lemma SyncKeepsSound(w: World, e: Event, content: (Uuid, Time) -> Content)
    requires SoundWorld(w, content) && Tidy(w) && e.Sync? && Has(w, e.d)
    ensures SoundWorld(Next(w, e), content) && w.log <= Next(w, e).log
  {
    var w', dev := Next(w, e), w.devs[e.d];
    NextSync(w, e);
    SyncSound(dev, w.log, e.d, e.answers, e.now, content);
    AfterPullSound(dev, w.log, content);
    forall k | 0 <= k < |w'.devs| ensures Sound(w'.devs[k], w'.log, content) {
      if k != e.d {
        SoundInLongerLog(w.devs[k], w.log, w'.log, content);
      }
    }
    HeldInLongerLog(w, w', e.d);
    SyncIsFromMade(w, e, content);
  }

  lemma EditedDevice(dev: Dev, log: seq<Version>, u: Uuid, o: Obj, content: (Uuid, Time) -> Content)
    requires GroupsStay(content) && Sound(dev, log, content) && Authentic(content, u, o)
    requires u in dev.file ==> Second(dev.file[u]) <= Second(o)
    requires AtLeast(dev.tracked.states, u, Trigger(o)) ==> ServerHas(log, u, Second(o))
    ensures Sound(dev.(file := dev.file[u := o]), log, content)
  {
    forall k | k in dev.tracked.known ensures k in Folders(dev.file[u := o]) {
      if k == u {
        AuthenticFolder(content, u, dev.file[u], o);
      }
    }
  }

  lemma HeldWhenEdited(w: World, e: Event, u: Uuid, t: Time)
    requires Tidy(w) && e.Edit? && Has(w, e.d) && Held(w, u, t)
    requires e.u in w.devs[e.d].file ==> Second(w.devs[e.d].file[e.u]) <= Second(e.o)
    ensures Held(Next(w, e), u, t)
  {
    var w' := Next(w, e);
    if !ServerHas(w.log, u, t) {
      var k :| 0 <= k < |w.devs| && u in w.devs[k].file && t <= Second(w.devs[k].file[u]);
      assert u in w'.devs[k].file && t <= Second(w'.devs[k].file[u]);
    }
  }

  lemma EditKeepsSound(w: World, e: Event, content: (Uuid, Time) -> Content)
    requires SoundWorld(w, content) && Tidy(w) && e.Edit? && Permitted(w, e, content)
    ensures SoundWorld(Next(w, e), content)
  {
    var w' := Next(w, e);
    EditIsFromMade(w, e);
    EditedDevice(w.devs[e.d], w.log, e.u, e.o, content);
    forall k | 0 <= k < |w'.devs| ensures Sound(w'.devs[k], w'.log, content) {
      assert Sound(w.devs[k], w.log, content);
    }
    forall m | m in w'.made ensures Held(w', m.0, Second(m.1)) {
      if m in w.made {
        HeldWhenEdited(w, e, m.0, Second(m.1));
      } else {
        assert m == (e.u, e.o) && e.u in w'.devs[e.d].file;
      }
    }
  }

  lemma FailedPullIsSound(dev: Dev, log: seq<Version>, content: (Uuid, Time) -> Content)
    requires Sound(dev, log, content)
    ensures Sound(PullFailed(dev, log), log, content)
  {
    var dev' := PullFailed(dev, log);
    PullTracks(dev.tracked, PullEnvOf(dev.file, log, dev.tracked.lastSeq, false));
    forall u | u in dev.file && !ServerHas(log, u, Second(dev.file[u]))
      ensures !AtLeast(dev'.tracked.states, u, Trigger(dev.file[u]))
    {
      FloorIsLastSecond(dev.file[u].mod, dev.file[u].mod);
      if AtLeast(dev'.tracked.states, u, Trigger(dev.file[u])) {
        PullRecordsNoMore(dev, log, false, u, Trigger(dev.file[u]));
      }
    }
  }

  lemma PullFailKeepsSound(w: World, e: Event, content: (Uuid, Time) -> Content)
    requires SoundWorld(w, content) && Tidy(w) && e.PullFails? && Has(w, e.d)
    ensures SoundWorld(Next(w, e), content)
  {
    var w', dev := Next(w, e), w.devs[e.d];
    assert Sound(dev, w.log, content);
    FailedPullIsSound(dev, w.log, content);
    forall k | 0 <= k < |w'.devs| ensures Sound(w'.devs[k], w'.log, content) {
      assert Sound(w.devs[k], w.log, content);
    }
    HeldInLongerLog(w, w', e.d);
  }

  lemma StepKeepsSound(w: World, e: Event, content: (Uuid, Time) -> Content)
    requires SoundWorld(w, content) && Tidy(w) && Permitted(w, e, content)
    ensures SoundWorld(Next(w, e), content)
  {
    match e {
      case Edit(_, _, _) => EditKeepsSound(w, e, content);
      case Drop(_, _, _) =>
      case PullFails(_, _) => PullFailKeepsSound(w, e, content);
      case Sync(_, _, _, _) => SyncKeepsSound(w, e, content);
    }
  }

  // ---------------------------------------------------------------- rounds

  /** Everything in this file has reached the server. */
  ghost predicate Delivered(w: World, d: Device) {
    Has(w, d) && forall u | u in w.devs[d].file :: ServerHas(w.log, u, Second(w.devs[d].file[u]))
  }

  /** The file has everything the server has, and nothing later. */
  ghost predicate SameContent(w: World, d: Device) {
    && Has(w, d)
    && (forall u :: u in w.devs[d].file <==> InLog(w.log, u))
    && (forall u | u in w.devs[d].file ::
          Second(w.devs[d].file[u]) == Second(Latest(w.log, u)) && ContentOf(w.devs[d].file[u]) == ContentOf(Latest(w.log, u)))
  }

  /** The server has the same content in both logs. */
  ghost predicate SameServer(a: seq<Version>, b: seq<Version>) {
    && (forall u :: InLog(a, u) <==> InLog(b, u))
    && (forall u | InLog(a, u) :: Second(Latest(a, u)) == Second(Latest(b, u)))
  }

  lemma TurnDelivers(w: World, t: Turn, content: (Uuid, Time) -> Content)
    requires SoundWorld(w, content) && Tidy(w) && Has(w, t.device)
    ensures var w', d := FullNext(w, t), t.device;
            && SoundWorld(w', content) && w.log <= w'.log && w'.made == w.made
            && (forall k | 0 <= k < |w.devs| && k != d :: w'.devs[k] == w.devs[k])
            && Delivered(w', d) && Holds(w'.devs[d].file, w'.log)
  {
    var e, d := FullSync(w, t), t.device;
    var dev, w' := w.devs[d], FullNext(w, t);
    NextSync(w, e);
    SyncKeepsSound(w, e, content);
    SyncSound(dev, w.log, d, e.answers, t.now, content);
    forall u | u in w'.devs[d].file ensures ServerHas(w'.log, u, Second(w'.devs[d].file[u])) {
      FullSyncSends(dev, w.log, d, e.answers, t.now, content, u);
    }
  }

  lemma DeliveredStays(w: World, w': World, d: Device)
    requires Delivered(w, d) && Has(w', d) && w'.devs[d] == w.devs[d] && w.log <= w'.log && NotFalling(w'.log)
    ensures Delivered(w', d)
  {
    forall u | u in w'.devs[d].file ensures ServerHas(w'.log, u, Second(w'.devs[d].file[u])) {
      ServerKeeps(w.log, w'.log, u, Second(w.devs[d].file[u]));
    }
  }

  ghost predicate Started(w: World, start: World, content: (Uuid, Time) -> Content) {
    SoundWorld(w, content) && w.made == start.made && |w.devs| == |start.devs|
  }

  lemma DeliveryTurn(w: World, t: Turn, start: World, content: (Uuid, Time) -> Content)
    requires Tidy(w) && Has(w, t.device) && Started(w, start, content)
    ensures Started(FullNext(w, t), start, content) && Delivered(FullNext(w, t), t.device)
    ensures forall x | Delivered(w, x) :: Delivered(FullNext(w, t), x)
  {
    var w' := FullNext(w, t);
    TurnDelivers(w, t, content);
    forall x | Delivered(w, x) ensures Delivered(w', x) {
      if x != t.device {
        DeliveredStays(w, w', x);
      }
    }
  }

  lemma DeliverySpreads(start: World, content: (Uuid, Time) -> Content, inv: World -> bool)
    requires inv == (w => Started(w, start, content))
    ensures Carries(inv, Delivered)
  {
    forall w, t: Turn | Tidy(w) && Has(w, t.device) && inv(w)
      ensures inv(FullNext(w, t)) && Delivered(FullNext(w, t), t.device)
      ensures forall x | Delivered(w, x) :: Delivered(FullNext(w, t), x)
    {
      DeliveryTurn(w, t, start, content);
    }
  }

  /** Every file has been delivered, so no cycle can change any content on the server any more. */
  ghost predicate AllDelivered(w: World, start: World, content: (Uuid, Time) -> Content) {
    Started(w, start, content) && SameServer(start.log, w.log) && forall d | 0 <= d < |w.devs| :: Delivered(w, d)
  }

  /** In a turn of an all-delivered world only places can change on the server. */
  lemma DeliveredTurn(w: World, t: Turn, content: (Uuid, Time) -> Content)
    requires SoundWorld(w, content) && Tidy(w) && Has(w, t.device) && Delivered(w, t.device)
    ensures SameServer(w.log, FullNext(w, t).log)
  {
    var e, d := FullSync(w, t), t.device;
    NextSync(w, e);
    AfterPullSound(w.devs[d], w.log, content);
    forall u ensures InLog(w.log, u) <==> InLog(FullNext(w, t).log, u)
             ensures InLog(w.log, u) ==> Second(Latest(w.log, u)) == Second(Latest(FullNext(w, t).log, u))
    {
      DeliveredObject(w, d, e.answers, t.now, content, u);
    }
  }

  lemma DeliveredObject(w: World, d: Device, answers: nat, now: Time, content: (Uuid, Time) -> Content, u: Uuid)
    requires SoundWorld(w, content) && Has(w, d) && Delivered(w, d) && w.devs[d].tracked.lastSeq >= 0
    ensures var log' := LogAfter(w.devs[d], w.log, d, answers, now);
            && (InLog(w.log, u) <==> InLog(log', u))
            && (InLog(w.log, u) ==> Second(Latest(w.log, u)) == Second(Latest(log', u)))
  {
    var dev := w.devs[d];
    var pulled := PulledDev(dev, w.log);
    AfterPullSound(dev, w.log, content);
    PulledOne(dev, w.log, content, u);
    SentIsSendable(pulled, w.log, answers, now);
    PushTracksAll(pulled, w.log, answers, now, u);
    var sent := PushedDev(pulled, w.log, answers, now).sent;
    if u in pulled.file {
      SentAsItIs(pulled, w.log, answers, now, u);
      StampedSecond(pulled.file[u]);
      NewestAfterUploads(w.log, d, pulled.file, sent, u, Stamped(pulled.file[u]));
    } else {
      NewestAfterUploads(w.log, d, pulled.file, sent, u, Dead(0));
    }
  }

  /** A device whose file is delivered and has all the server has, has the same content. */
  lemma DeliveredAndHeld(w: World, d: Device, content: (Uuid, Time) -> Content)
    requires SoundWorld(w, content) && Delivered(w, d) && Holds(w.devs[d].file, w.log)
    ensures SameContent(w, d)
  {
    forall u | u in w.devs[d].file
      ensures InLog(w.log, u) && Second(w.devs[d].file[u]) == Second(Latest(w.log, u))
      ensures ContentOf(w.devs[d].file[u]) == ContentOf(Latest(w.log, u))
    {
      assert ServerHas(w.log, u, Second(w.devs[d].file[u]));
      assert Sound(w.devs[d], w.log, content);
      assert Authentic(content, u, w.devs[d].file[u]) && Authentic(content, u, Latest(w.log, u));
    }
  }

  lemma SameContentStays(w: World, w': World, d: Device, content: (Uuid, Time) -> Content)
    requires SoundWorld(w', content) && SameContent(w, d) && Has(w', d) && w'.devs[d] == w.devs[d]
    requires SameServer(w.log, w'.log)
    ensures SameContent(w', d)
  {
    forall u | u in w'.devs[d].file
      ensures Second(w'.devs[d].file[u]) == Second(Latest(w'.log, u))
      ensures ContentOf(w'.devs[d].file[u]) == ContentOf(Latest(w'.log, u))
    {
      assert Sound(w'.devs[d], w'.log, content);
      assert Authentic(content, u, w'.devs[d].file[u]) && Authentic(content, u, Latest(w'.log, u));
    }
  }

  lemma SettlingTurn(w: World, t: Turn, start: World, content: (Uuid, Time) -> Content)
    requires Tidy(w) && Has(w, t.device) && AllDelivered(w, start, content)
    ensures AllDelivered(FullNext(w, t), start, content) && SameContent(FullNext(w, t), t.device)
    ensures forall x | SameContent(w, x) :: SameContent(FullNext(w, t), x)
  {
    var w' := FullNext(w, t);
    assert Delivered(w, t.device);
    TurnDelivers(w, t, content);
    DeliveredTurn(w, t, content);
    DeliveryTurn(w, t, start, content);
    DeliveredAndHeld(w', t.device, content);
    forall x | SameContent(w, x) ensures SameContent(w', x) {
      if x != t.device {
        SameContentStays(w, w', x, content);
      }
    }
  }

  lemma SettlingSpreads(start: World, content: (Uuid, Time) -> Content, inv: World -> bool)
    requires inv == (w => AllDelivered(w, start, content))
    ensures Carries(inv, SameContent)
  {
    forall w, t: Turn | Tidy(w) && Has(w, t.device) && inv(w)
      ensures inv(FullNext(w, t)) && SameContent(FullNext(w, t), t.device)
      ensures forall x | SameContent(w, x) :: SameContent(FullNext(w, t), x)
    {
      SettlingTurn(w, t, start, content);
    }
  }

  // ---------------------------------------------------------------- whole runs

  ghost predicate Proper(w: World, events: seq<Event>, content: (Uuid, Time) -> Content)
    requires Tidy(w)
    decreases |events|
  {
    events == [] ||
    (Permitted(w, events[0], content) && Proper(Next(w, events[0]), events[1..], content))
  }

  ghost function Outcome(w: World, events: seq<Event>, content: (Uuid, Time) -> Content): (r: World)
    requires Tidy(w) && Proper(w, events, content)
    ensures Tidy(r) && |r.devs| == |w.devs|
    decreases |events|
  {
    if events == [] then w else Outcome(Next(w, events[0]), events[1..], content)
  }

  lemma {:induction false} RunKeepsSound(w: World, events: seq<Event>, content: (Uuid, Time) -> Content)
    requires Tidy(w) && SoundWorld(w, content) && Proper(w, events, content)
    ensures SoundWorld(Outcome(w, events, content), content)
    decreases |events|
  {
    if events != [] {
      StepKeepsSound(w, events[0], content);
      RunKeepsSound(Next(w, events[0]), events[1..], content);
    }
  }

  /** Before anything was synced. */
  ghost predicate Beginning(w: World, content: (Uuid, Time) -> Content) {
    && GroupsStay(content) && w.log == []
    && (forall d | 0 <= d < |w.devs| ::
          && AuthenticFile(content, w.devs[d].file)
          && w.devs[d].tracked.lastSeq == 0 && w.devs[d].tracked.known == []
          && forall u, t :: !AtLeast(w.devs[d].tracked.states, u, t))
    && (forall m | m in w.made ::
          exists d :: 0 <= d < |w.devs| && m.0 in w.devs[d].file && Second(m.1) <= Second(w.devs[d].file[m.0]))
    && (forall d | 0 <= d < |w.devs| :: MadeFile(w.devs[d].file, w.made))
  }

  lemma BeginningIsSound(w: World, content: (Uuid, Time) -> Content)
    requires Beginning(w, content)
    ensures SoundWorld(w, content)
  {
    forall d | 0 <= d < |w.devs| ensures Sound(w.devs[d], w.log, content) {
    }
    forall m | m in w.made ensures Held(w, m.0, Second(m.1)) {
    }
  }

  /** All devices hold the server's content, which is the latest version ever made of each object. */
  ghost predicate ContentConverged(w: World) {
    && (forall d | 0 <= d < |w.devs| :: SameContent(w, d))
    && (forall m | m in w.made :: ServerHas(w.log, m.0, Second(m.1)))
    && (forall u | InLog(w.log, u) :: WasMade(w.made, u, Second(Latest(w.log, u))))
  }

  lemma FirstDelivery(e: World, turns: seq<Turn>, content: (Uuid, Time) -> Content)
    requires SoundWorld(e, content) && Tidy(e) && EveryoneIn(e, turns)
    ensures AllDelivered(Round(e, turns), Round(e, turns), content) && Round(e, turns).made == e.made
  {
    var inv := w => Started(w, e, content);
    DeliverySpreads(e, content, inv);
    RoundOfAll(e, turns, inv, Delivered);
  }

  lemma SecondDelivery(f: World, turns: seq<Turn>, content: (Uuid, Time) -> Content)
    requires AllDelivered(f, f, content) && Tidy(f) && EveryoneIn(f, turns)
    ensures AllDelivered(Round(f, turns), f, content)
    ensures forall d | 0 <= d < |f.devs| :: SameContent(Round(f, turns), d)
  {
    var inv := w => AllDelivered(w, f, content);
    SettlingSpreads(f, content, inv);
    RoundOfAll(f, turns, inv, SameContent);
  }

  /**
   Convergence of content. Take any number of devices and any run of changes, moves, failed pulls, and syncs
   that went through or failed part-way, with their tracking state kept or dropped; each edit being later than
   what its device has recorded for the object, if it is not beaten anyway. After the last edit let every device
   complete one cycle, in any order and any number of times, and then one more. Then every database has exactly
   the objects the server has, each with the same content and the same second of modification, and that is the
   latest version ever made of it anywhere.
   */
  lemma ContentConverges(w: World, events: seq<Event>, round1: seq<Turn>, round2: seq<Turn>,
                         content: (Uuid, Time) -> Content)
    requires Beginning(w, content) && Tidy(w) && Proper(w, events, content)
    requires EveryoneIn(w, round1) && EveryoneIn(w, round2)
    ensures var e := Outcome(w, events, content);
            var r := Round(Round(e, round1), round2);
            ContentConverged(r) && r.made == e.made
  {
    BeginningIsSound(w, content);
    RunKeepsSound(w, events, content);
    var e := Outcome(w, events, content);
    FirstDelivery(e, round1, content);
    SecondDelivery(Round(e, round1), round2, content);
    NothingLaterMade(Round(Round(e, round1), round2), Round(e, round1), content);
  }

  lemma NothingLaterMade(r: World, f: World, content: (Uuid, Time) -> Content)
    requires AllDelivered(r, f, content) && forall d | 0 <= d < |f.devs| :: SameContent(r, d)
    ensures ContentConverged(r) && r.made == f.made
  {
    forall m | m in r.made ensures ServerHas(r.log, m.0, Second(m.1)) {
      assert Held(r, m.0, Second(m.1));
      assert forall k | 0 <= k < |r.devs| && m.0 in r.devs[k].file && Second(m.1) <= Second(r.devs[k].file[m.0]) ::
               Delivered(r, k);
    }
  }

  // ---------------------------------------------------------------- the condition on edits is exact

  /**
   What a device holds of an object reaches the server in its next complete cycle if and only if its trigger is
   then later than what the pull leaves recorded, or the server has it already.
   */
  lemma EditArrivesIff(dev: Dev, log: seq<Version>, d: Device, answers: nat, now: Time, u: Uuid)
    requires Cycles(dev, log, answers, now) && u in dev.file && NotDoomed(PulledDev(dev, log), u)
    ensures var p := PulledDev(dev, log);
            && u in p.file
            && (ServerHas(LogAfter(dev, log, d, answers, now), u, Second(dev.file[u]))
                <==> !AtLeast(p.tracked.states, u, Trigger(p.file[u])) || ServerHas(log, u, Second(dev.file[u])))
  {
    var p := PulledDev(dev, log);
    var n := Newest(log, u);
    if n.Some? && n.value >= dev.tracked.lastSeq {
      MergeSecond(dev.file[u], log[n.value].obj, StagedFolders(dev.file, log, dev.tracked.lastSeq));
    }
    assert Second(dev.file[u]) <= Second(p.file[u]);
    StampedSecond(p.file[u]);
    CycleOnOne(dev, log, d, answers, now, u);
    SentKeepsSecond(p, log, d, answers, now, u);
  }

  lemma SentKeepsSecond(dev: Dev, log: seq<Version>, d: Device, answers: nat, now: Time, u: Uuid)
    requires u in dev.file && NotDoomed(dev, u)
    ensures Sendable(dev.file, PushedDev(dev, log, answers, now).sent)
    ensures var log' := log + Uploaded(d, dev.file, PushedDev(dev, log, answers, now).sent);
            InLog(log, u) ==> InLog(log', u) && (Latest(log', u) == Latest(log, u) || Latest(log', u) == Stamped(dev.file[u]))
  {
    SentAsItIs(dev, log, answers, now, u);
    NewestAfterUploads(log, d, dev.file, PushedDev(dev, log, answers, now).sent, u, Stamped(dev.file[u]));
  }

  /**
   So the condition is needed. The device moved an entry at second 50 and synced; then the user edited it by a
   clock that said 40, set back or another device's. No cycle uploads the edit.
   */
  lemma EditBehindARecordedMoveIsLost(dev: Dev, log: seq<Version>, d: Device, answers: nat, now: Time)
    requires dev.file == map[7 := Live(40 * SECOND, Fragment("new"), 50 * SECOND, None)]
    requires dev.tracked == Tracked(1, map[7 := At(50 * SECOND)], [])
    requires log == [Version(d, 7, Live(10 * SECOND, Fragment("old"), 50 * SECOND, None))]
    requires Cycles(dev, log, answers, now)
    ensures var log' := LogAfter(dev, log, d, answers, now);
            && 7 in PulledDev(dev, log).file && PulledDev(dev, log).file[7] == dev.file[7]
            && InLog(log', 7) && Latest(log', 7) == log[0].obj
  {
    assert Newest(log, 7) == Some(0);
    SettledStaysSettled(dev, log, d, answers, now, 7);
  }
}
