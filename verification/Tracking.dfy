/**
 Per-object tracking state of one database binding (client/internal/config/config.go) and the
 push test on it (client/cmd/keepass-deltasync/syncop.go).

 A `Time` counts nanoseconds. States are stored as text with whole seconds, so writing one floors
 it; a stored text that does not parse is `Unparsable`.
 */
module Tracking {
  import opened Basics

  // A UUID as the 128-bit number it spells. In lower-case hex of fixed width, text order is number order.
  type Uuid = nat
  type Time = int

  const SECOND: int := 1_000_000_000

  datatype Recorded = At(t: Time) | Unparsable

  type States = map<Uuid, Recorded>

  datatype Tracked = Tracked(lastSeq: int, states: States, known: seq<Uuid>)

  predicate Whole(t: Time) {
    t % SECOND == 0
  }

  function Floor(t: Time): Time {
    t - t % SECOND
  }

  /** Floor is the last whole second at or before a time. */
  lemma FloorIsLastSecond(a: Time, b: Time)
    ensures Whole(Floor(a)) && Floor(a) <= a
    ensures Whole(b) && b <= a ==> b <= Floor(a)
    ensures Whole(a) <==> Floor(a) == a
    ensures a <= b ==> Floor(a) <= Floor(b)
  {
    var qa, qb := a / SECOND, b / SECOND;
    assert a == qa * SECOND + a % SECOND && b == qb * SECOND + b % SECOND;
    assert (qa * SECOND) % SECOND == 0;
  }

  /** The text a time is stored as: formatting drops the fraction of a second. */
  function Format(t: Time): Recorded {
    At(Floor(t))
  }

  /** The last whole second at or before `t` is stored, or on the wire. */
  predicate ToTheSecond(r: Recorded, t: Time) {
    r.At? && Whole(r.t) && r.t <= t < r.t + SECOND
  }

  lemma FormatKeepsTheSecond(t: Time)
    ensures forall r :: ToTheSecond(r, t) <==> r == Format(t)
  {
    FloorIsLastSecond(t, t);
    forall r ensures ToTheSecond(r, t) ==> r == Format(t) {
      if ToTheSecond(r, t) {
        FloorIsLastSecond(t, r.t);
        WholeGap(Floor(t), r.t);
      }
    }
  }

  lemma WholeGap(a: Time, b: Time)
    requires Whole(a) && Whole(b) && b <= a < b + SECOND
    ensures a == b
  {
    assert a - b == (a / SECOND - b / SECOND) * SECOND;
  }

  function LaterTime(a: Time, b: Time): Time {
    if b > a then b else a
  }

  /** The tracking map knows of `u` as of time `t` or later. */
  predicate AtLeast(states: States, u: Uuid, t: Time) {
    u in states && states[u].At? && states[u].t >= t
  }

  predicate ShouldPush(states: States, u: Uuid, mtime: Time) {
    if u !in states then true
    else if states[u].Unparsable? then true
    else states[u].t < mtime
  }

  function Record(states: States, u: Uuid, stamp: Recorded): States {
    states[u := stamp]
  }

  function RecordIfNewer(states: States, u: Uuid, stamp: Recorded): States {
    if u in states && states[u].At? && stamp.At? && stamp.t <= states[u].t then states
    else states[u := stamp]
  }

  predicate WholeStates(states: States) {
    forall u | u in states :: states[u].At? ==> Whole(states[u].t)
  }

  /** Nothing known in `a` is forgotten in `b`: no recorded time moved backwards. */
  ghost predicate NotBelow(a: States, b: States) {
    forall u, t :: AtLeast(a, u, t) ==> AtLeast(b, u, t)
  }

  /** The push test is exactly the absence of knowledge as late as the trigger. */
  lemma ShouldPushIsNotAtLeast(states: States, u: Uuid, t: Time)
    ensures ShouldPush(states, u, t) <==> !AtLeast(states, u, t)
  {}

  /** What a pull records: the later of the old knowledge and the server's time, and nothing else moves. */
  lemma RecordIfNewerRaises(states: States, u: Uuid, modAt: Time)
    ensures var s := RecordIfNewer(states, u, Format(modAt));
            && NotBelow(states, s)
            && (forall v, t :: AtLeast(s, v, t) <==> AtLeast(states, v, t) || (v == u && Floor(modAt) >= t))
            && (WholeStates(states) ==> WholeStates(s))
  {
    var s := RecordIfNewer(states, u, Format(modAt));
    forall v, t ensures AtLeast(s, v, t) <==> AtLeast(states, v, t) || (v == u && Floor(modAt) >= t) {
    }
  }

  /** The mutable binding. Loading it from the config file gives the constructor's argument. */
  class Database {
    var LastSeq: int
    var EntryStates: States
    var KnownGroups: seq<Uuid>

    function View(): Tracked
      reads this
    {
      Tracked(LastSeq, EntryStates, KnownGroups)
    }

    constructor (t: Tracked)
      ensures View() == t
    {
      LastSeq := t.lastSeq;
      EntryStates := t.states;
      KnownGroups := t.known;
    }

    method RecordEntryState(u: Uuid, stamp: Recorded)
      modifies this`EntryStates
      ensures EntryStates == Record(old(EntryStates), u, stamp)
    {
      EntryStates := EntryStates[u := stamp];
    }

    method RecordEntryStateIfNewer(u: Uuid, stamp: Recorded)
      modifies this`EntryStates
      ensures EntryStates == RecordIfNewer(old(EntryStates), u, stamp)
    {
      if u in EntryStates {
        var prev := EntryStates[u];
        if prev.At? && stamp.At? && !(stamp.t > prev.t) {
          return;
        }
      }
      EntryStates := EntryStates[u := stamp];
    }
  }
}
