/**
 The browser host's session state (client/cmd/keepass-deltasync/browser_host.go): indexes, and the
 passwords it holds for databases without a keyring entry.
 */
module PasswordCache {
  import opened Basics
  import Pages

  type Name = string
  type Secret = seq<bv8>
  type Index = seq<Pages.Entry>

  // What a caller can observe.
  datatype View = View(cached: map<Name, Secret>, index: map<Name, Index>, generation: int)

  predicate Zeros(s: Secret) {
    forall k | 0 <= k < |s| :: s[k] == 0
  }

  method Zero(b: array<bv8>)
    modifies b
    ensures Zeros(b[..])
  {
    for i := 0 to b.Length
      invariant forall k | 0 <= k < i :: b[k] == 0
    {
      b[i] := 0;
    }
  }

  method Copy(s: Secret) returns (b: array<bv8>)
    ensures fresh(b) && b[..] == s
  {
    b := new bv8[|s|](k requires 0 <= k < |s| => s[k]);
  }

  // What an unlock request meets: a password typed by the user or none, the keyring's answer (without one it is
  // `broken`, or simply has no such password), whether a password opens the database, and what index its content makes.
  datatype Request = Request(name: Name, typed: Option<Secret>, keyring: Option<Secret>, broken: bool,
                             opens: Secret -> bool, content: Option<Index>)

  datatype Reply = NeedsPassword | Failed | Unlocked(count: nat, generation: int)

  // ---------------------------------------------------------------- what each operation does to the view

  function Remembered(v: View, name: Name, pw: Secret): View {
    v.(cached := v.cached[name := pw])
  }

  function Forgotten(v: View, name: Name): View {
    v.(cached := v.cached - {name})
  }

  function Locked(v: View): View {
    View(map[], map[], v.generation + 1)
  }

  /** The password an unlock goes by: the typed one, else the cached one, else the keyring's. */
  function Chosen(v: View, r: Request): Option<Secret> {
    if r.typed.Some? then r.typed
    else if r.name in v.cached then Some(v.cached[r.name])
    else r.keyring
  }

  /** The keyring is asked, and has it. */
  predicate FromKeyring(v: View, r: Request) {
    r.typed.None? && r.name !in v.cached && r.keyring.Some?
  }

  function Known(v: View, r: Request): View {
    if r.typed.Some? then Remembered(v, r.name, r.typed.value) else v
  }

  function UnlockView(v: View, r: Request): View {
    var known := Known(v, r);
    var pw := Chosen(v, r);
    if pw.None? then known else Indexed(known, r, r.opens(pw.value))
  }

  /** The rest of an unlock, once it is known whether the password opens the database. */
  function Indexed(v: View, r: Request, opens: bool): View {
    if !opens then Forgotten(v, r.name)
    else if r.content.None? then v
    else v.(index := v.index[r.name := r.content.value], generation := v.generation + 1)
  }

  function UnlockReply(v: View, r: Request): Reply {
    var pw := Chosen(v, r);
    if pw.None? then WithoutPassword(r)
    else Outcome(r, r.opens(pw.value), v.generation)
  }

  function WithoutPassword(r: Request): Reply {
    if r.broken then Failed else NeedsPassword
  }

  function Outcome(r: Request, opens: bool, generation: int): Reply {
    if !opens || r.content.None? then Failed else Unlocked(|r.content.value|, generation + 1)
  }

  /** `pw` is what the user typed, or, that failing, what is cached, or, that failing too, what the keyring has. */
  predicate IsPassword(v: View, r: Request, pw: Secret) {
    || r.typed == Some(pw)
    || (r.typed.None? && r.name in v.cached && v.cached[r.name] == pw)
    || (r.typed.None? && r.name !in v.cached && r.keyring == Some(pw))
  }

  /**
   What an unlock answers, and what that tells about the state it leaves. The answer is a success exactly when there
   is a password, it opens the database and the content can be indexed. Then the index is that content, the count its
   length, the generation the new one, one up; any other answer leaves indexes and generation alone. A password is
   asked for exactly when none was typed or cached and the keyring, which could be read, has none.
   */
  lemma UnlockAnswers(v: View, r: Request)
    ensures var reply, u := UnlockReply(v, r), UnlockView(v, r);
            && (reply.Unlocked? <==> (exists pw :: IsPassword(v, r, pw) && r.opens(pw)) && r.content.Some?)
            && (reply.NeedsPassword? <==> r.typed.None? && r.name !in v.cached && r.keyring.None? && !r.broken)
            && (reply.Unlocked? ==>
                  && r.name in u.index && r.content == Some(u.index[r.name])
                  && reply.count == |u.index[r.name]| && reply.generation == u.generation == v.generation + 1)
            && (!reply.Unlocked? ==> u.index == v.index && u.generation == v.generation)
            && (forall n | n != r.name :: n in u.index <==> n in v.index)
            && (forall n | n != r.name && n in v.index :: u.index[n] == v.index[n])
            && (forall n | n != r.name :: n in u.cached <==> n in v.cached)
            && (forall n | n != r.name && n in v.cached :: u.cached[n] == v.cached[n])
  {
    if r.typed.Some? {
      assert IsPassword(v, r, r.typed.value);
    } else if r.name in v.cached {
      assert IsPassword(v, r, v.cached[r.name]);
    } else if r.keyring.Some? {
      assert IsPassword(v, r, r.keyring.value);
    }
  }

  // ---------------------------------------------------------------- the host

  lemma DropThenPut<K, V>(m: map<K, V>, k: K, v: V)
    ensures (m - {k})[k := v] == m[k := v]
    ensures (m - {k})[k := v].Keys == m[k := v].Keys == m.Keys + {k}
  {}

  /** The cache and the record of buffers say the same. */
  ghost predicate Paired(cache: map<Name, array<bv8>>, fate: map<array<bv8>, Option<Name>>) {
    && (forall n | n in cache :: cache[n] in fate && fate[cache[n]] == Some(n))
    && (forall b | b in fate && fate[b].Some? :: fate[b].value in cache && cache[fate[b].value] == b)
  }

  lemma PairedDrop(cache: map<Name, array<bv8>>, fate: map<array<bv8>, Option<Name>>, name: Name)
    requires Paired(cache, fate) && name in cache
    ensures Paired(cache - {name}, fate[cache[name] := None])
  {}

  lemma PairedPut(cache: map<Name, array<bv8>>, fate: map<array<bv8>, Option<Name>>, name: Name, b: array<bv8>)
    requires Paired(cache, fate) && name !in cache && b !in fate
    ensures Paired(cache[name := b], fate[b := Some(name)])
  {}

  lemma PairedDiscard(cache: map<Name, array<bv8>>, fate: map<array<bv8>, Option<Name>>, b: array<bv8>)
    requires Paired(cache, fate) && b !in fate
    ensures Paired(cache, fate[b := None])
  {}

  /** Every name's timer is running for that name, and no other timer is. */
  ghost predicate Timed(timers: map<Name, nat>, running: map<nat, Name>, next: nat) {
    && (forall n | n in timers :: timers[n] in running && running[timers[n]] == n)
    && (forall t | t in running :: t < next && running[t] in timers && timers[running[t]] == t)
  }

  class Host {
    var index: map<Name, Index>
    var generation: int
    var fallbackPW: map<Name, array<bv8>>
    var pwTimers: map<Name, nat>
    var nextTimer: nat
    ghost var secrets: map<Name, Secret>             // what the cached buffers hold
    ghost var running: map<nat, Name>                // timers neither stopped nor fired, and whom they expire
    ghost var fate: map<array<bv8>, Option<Name>>    // every buffer ever held: whose it is, or None once it left

    /** Each cached buffer has one name and holds its secret, and each one that left holds nothing but zeros. */
    ghost predicate BuffersMatch()
      reads this`fallbackPW, this`fate, this`secrets, fate.Keys
    {
      && Paired(fallbackPW, fate) && secrets.Keys == fallbackPW.Keys
      && (forall n | n in fallbackPW :: fallbackPW[n] in fate && fallbackPW[n][..] == secrets[n])
      && (forall b | b in fate && fate[b].None? :: Zeros(b[..]))
    }

    ghost predicate TimersMatch()
      reads this`pwTimers, this`running, this`nextTimer
    {
      Timed(pwTimers, running, nextTimer)
    }

    ghost predicate Valid()
      reads this, fate.Keys
    {
      BuffersMatch() && TimersMatch() && pwTimers.Keys == fallbackPW.Keys
    }

    ghost function Observed(): View
      reads this`secrets, this`index, this`generation
    {
      View(secrets, index, generation)
    }

    constructor ()
      ensures Valid() && Observed() == View(map[], map[], 0) && fate == map[]
    {
      index, generation, fallbackPW, pwTimers, nextTimer := map[], 0, map[], map[], 0;
      secrets, running, fate := map[], map[], map[];
    }

    method ResetIdle(name: Name)
      requires BuffersMatch() && TimersMatch()
      modifies this`pwTimers, this`nextTimer, this`running
      ensures BuffersMatch() && pwTimers == old(pwTimers)[name := old(nextTimer)] && TimersMatch()
      ensures pwTimers.Keys == old(pwTimers.Keys) + {name}
    {
      DropThenPut(pwTimers, name, nextTimer);
      if name in pwTimers {
        running := running - {pwTimers[name]};
      }
      pwTimers := pwTimers[name := nextTimer];
      running := running[nextTimer := name];
      nextTimer := nextTimer + 1;
    }

    /** Wipes a cached buffer and drops it. */
    method WipeAndDrop(name: Name)
      requires BuffersMatch() && name in fallbackPW
      modifies this`fallbackPW, this`fate, this`secrets, fallbackPW[name]
      ensures BuffersMatch() && fallbackPW == old(fallbackPW) - {name} && secrets == old(secrets) - {name}
      ensures fate == old(fate)[old(fallbackPW[name]) := None]
    {
      var b := fallbackPW[name];
      PairedDrop(fallbackPW, fate, name);
      Zero(b);
      fallbackPW := fallbackPW - {name};
      secrets := secrets - {name};
      fate := fate[b := None];
    }

    method Drop(name: Name)
      requires BuffersMatch() && TimersMatch()
      modifies this`fallbackPW, this`fate, this`secrets, fate.Keys
      ensures BuffersMatch() && TimersMatch() && fallbackPW == old(fallbackPW) - {name} && secrets == old(secrets) - {name}
      ensures Continues(old(fate), fate) && fate.Keys == old(fate.Keys)
    {
      if name in fallbackPW {
        WipeAndDrop(name);
      }
    }

    method RememberPassword(name: Name, pw: array<bv8>)
      requires Valid() && pw !in fate
      modifies this, fate.Keys
      ensures Valid() && Observed() == Remembered(old(Observed()), name, old(pw[..]))
      ensures fallbackPW == old(fallbackPW)[name := pw] && pwTimers == old(pwTimers)[name := old(nextTimer)]
      ensures Continues(old(fate), fate) && fate.Keys == old(fate.Keys) + {pw}
    {
      Replace(name, pw);
      assert Observed() == Remembered(old(Observed()), name, old(pw[..]));
      ResetIdle(name);
    }

    method Replace(name: Name, pw: array<bv8>)
      requires BuffersMatch() && TimersMatch() && pw !in fate
      modifies this`fallbackPW, this`fate, this`secrets, fate.Keys
      ensures BuffersMatch() && TimersMatch() && fallbackPW == old(fallbackPW)[name := pw] && secrets == old(secrets)[name := old(pw[..])]
      ensures fallbackPW.Keys == old(fallbackPW.Keys) + {name}
      ensures Continues(old(fate), fate) && fate.Keys == old(fate.Keys) + {pw}
    {
      DropThenPut(fallbackPW, name, pw);
      DropThenPut(secrets, name, pw[..]);
      Drop(name);
      Put(name, pw);
    }

    method Put(name: Name, pw: array<bv8>)
      requires BuffersMatch() && name !in fallbackPW && pw !in fate
      modifies this`fallbackPW, this`fate, this`secrets
      ensures BuffersMatch() && fallbackPW == old(fallbackPW)[name := pw] && secrets == old(secrets)[name := pw[..]]
      ensures fate == old(fate)[pw := Some(name)]
    {
      PairedPut(fallbackPW, fate, name, pw);
      fallbackPW := fallbackPW[name := pw];
      secrets := secrets[name := pw[..]];
      fate := fate[pw := Some(name)];
    }

    method CachedPassword(name: Name) returns (pw: Option<array<bv8>>)
      requires Valid()
      modifies this`pwTimers, this`nextTimer, this`running
      ensures Valid() && Observed() == old(Observed())
      ensures pw == if name in fallbackPW then Some(fallbackPW[name]) else None
      ensures pwTimers == if name in fallbackPW then old(pwTimers)[name := old(nextTimer)] else old(pwTimers)
      ensures (pw.Some? <==> name in secrets) && (pw.Some? ==> pw.value[..] == secrets[name])
    {
      if name in fallbackPW {
        ResetIdle(name);
        return Some(fallbackPW[name]);
      }
      return None;
    }

    method StopTimer(name: Name)
      requires BuffersMatch() && TimersMatch()
      modifies this`pwTimers, this`running
      ensures BuffersMatch() && pwTimers == old(pwTimers) - {name} && TimersMatch()
    {
      if name in pwTimers {
        running := running - {pwTimers[name]};
        pwTimers := pwTimers - {name};
      }
    }

    /** The idle timer fired, or the password did not open the database. */
    method ForgetPassword(name: Name)
      requires Valid()
      modifies this, fate.Keys
      ensures Valid() && Observed() == Forgotten(old(Observed()), name)
      ensures fallbackPW == old(fallbackPW) - {name} && Continues(old(fate), fate) && fate.Keys == old(fate.Keys)
    {
      Drop(name);
      StopTimer(name);
    }

    method DropAll()
      requires BuffersMatch() && TimersMatch()
      modifies this`fallbackPW, this`fate, this`secrets, fate.Keys
      ensures BuffersMatch() && TimersMatch() && fallbackPW == map[] && Continues(old(fate), fate)
    {
      while fallbackPW != map[]
        invariant BuffersMatch() && TimersMatch() && Continues(old(fate), fate) && fate.Keys == old(fate.Keys)
        decreases fallbackPW
      {
        var name :| name in fallbackPW;
        Drop(name);
      }
    }

    method ZeroAll()
      requires Valid()
      modifies this, fate.Keys
      ensures Valid() && Observed() == Locked(old(Observed())) && Continues(old(fate), fate)
      ensures pwTimers == map[] && running == map[] && forall b | b in fate :: Zeros(b[..])
    {
      DropAll();
      pwTimers := map[];
      running := map[];
      index := map[];
      generation := generation + 1;
    }

    method RememberTyped(r: Request) returns (pw: Option<array<bv8>>)
      requires Valid() && r.typed.Some?
      modifies this, fate.Keys
      ensures Valid() && Observed() == Known(old(Observed()), r) && Continues(old(fate), fate)
      ensures pw.Some? && pw.value[..] == r.typed.value && fresh(pw.value)
      ensures fate.Keys == old(fate.Keys) + {pw.value}
    {
      var b := Allocate(r.typed.value);
      RememberPassword(r.name, b);
      pw := CachedPassword(r.name);
    }

    /** A buffer of its own for a secret. */
    method Allocate(s: Secret) returns (b: array<bv8>)
      requires Valid()
      ensures Valid() && fresh(b) && b[..] == s && b !in fate
    {
      b := Copy(s);
    }

    /** The keyring would answer the request with this buffer. */
    ghost predicate Stores(stored: Option<array<bv8>>, r: Request)
      reads this`fate, if stored.Some? then {stored.value} else {}
    {
      match stored
      case None => r.keyring == None
      case Some(b) => r.keyring == Some(b[..]) && b !in fate
    }

    /** Only the keyring's buffer belongs to the caller; the others stay the cache's own. */
    method AcquirePassword(r: Request, stored: Option<array<bv8>>) returns (pw: Option<array<bv8>>, callerOwns: bool)
      requires Valid() && Stores(stored, r)
      modifies this, fate.Keys
      ensures Valid() && Observed() == Known(old(Observed()), r) && Continues(old(fate), fate)
      ensures pw.Some? == Chosen(old(Observed()), r).Some?
      ensures pw.Some? ==> pw.value[..] == Chosen(old(Observed()), r).value
      ensures callerOwns <==> FromKeyring(old(Observed()), r)
      ensures callerOwns ==> pw == stored && pw.value !in fate
      ensures if r.typed.Some? then pw.Some? && fresh(pw.value) && fate.Keys == old(fate.Keys) + {pw.value}
              else fate.Keys == old(fate.Keys)
    {
      if r.typed.Some? {
        pw := RememberTyped(r);
        return pw, false;
      }
      pw := CachedPassword(r.name);
      if pw.Some? {
        return pw, false;
      }
      return stored, stored.Some?;
    }

    /** Whatever password it goes by, a buffer that came from the keyring is zeros afterwards. */
    method Unlock(r: Request, stored: Option<array<bv8>>) returns (reply: Reply)
      requires Valid() && Stores(stored, r)
      modifies this, fate.Keys, if stored.Some? then {stored.value} else {}
      ensures Valid() && Continues(old(fate), fate)
      ensures Observed() == UnlockView(old(Observed()), r) && reply == UnlockReply(old(Observed()), r)
      ensures FromKeyring(old(Observed()), r) ==> Zeros(stored.value[..])
      ensures reply.Unlocked? ==> r.name in index && reply.count == |index[r.name]| && reply.generation == generation
    {
      UnlockAnswers(Observed(), r);
      var pw, callerOwns := AcquirePassword(r, stored);
      if pw.None? {
        return WithoutPassword(r);
      }
      ghost var acquired := fate;
      reply := OpenAndIndex(r, pw.value, callerOwns);
      ContinuesOn(old(fate), acquired, fate);
    }

    /** The rest of an unlock, with the password at hand. */
    method OpenAndIndex(r: Request, pw: array<bv8>, callerOwns: bool) returns (reply: Reply)
      requires Valid() && (callerOwns ==> pw !in fate)
      modifies this, fate.Keys, if callerOwns then {pw} else {}
      ensures Valid() && Continues(old(fate), fate)
      ensures Observed() == Indexed(old(Observed()), r, r.opens(old(pw[..])))
      ensures reply == Outcome(r, r.opens(old(pw[..])), old(generation))
      ensures callerOwns ==> Zeros(pw[..])
    {
      var opens := TryPassword(r, pw, callerOwns);
      ghost var tried := fate;
      reply := BuildIndex(r, opens);
      ContinuesOn(old(fate), tried, fate);
      assert callerOwns ==> pw in tried && tried[pw].None?;
    }

    /** Opens the database, and wipes the buffer right after if it is the caller's. */
    method TryPassword(r: Request, pw: array<bv8>, callerOwns: bool) returns (opens: bool)
      requires Valid() && (callerOwns ==> pw !in fate)
      modifies this`fate, if callerOwns then {pw} else {}
      ensures Valid() && Observed() == old(Observed()) && Continues(old(fate), fate)
      ensures opens == r.opens(old(pw[..])) && fate == if callerOwns then old(fate)[pw := None] else old(fate)
    {
      opens := r.opens(pw[..]);
      if callerOwns {
        Discard(pw);
      }
    }

    method Discard(pw: array<bv8>)
      requires Valid() && pw !in fate
      modifies this`fate, pw
      ensures Valid() && fate == old(fate)[pw := None]
    {
      PairedDiscard(fallbackPW, fate, pw);
      Zero(pw);
      fate := fate[pw := None];
    }

    method BuildIndex(r: Request, opens: bool) returns (reply: Reply)
      requires Valid()
      modifies this, fate.Keys
      ensures Valid() && Continues(old(fate), fate)
      ensures Observed() == Indexed(old(Observed()), r, opens)
      ensures reply == Outcome(r, opens, old(generation))
    {
      if !opens {
        ForgetPassword(r.name);
        return Failed;
      }
      if r.content.None? {
        return Failed;
      }
      index := index[r.name := r.content.value];
      generation := generation + 1;
      return Unlocked(|r.content.value|, generation);
    }
  }

  /**
   The extension's side: unlock, then fetch as many entries as the host announced. From a host that keeps the index
   meanwhile, it gets the whole content of the database.
   */
  method UnlockDatabase(host: Host, r: Request, stored: Option<array<bv8>>, limit: int)
    returns (reply: Reply, entries: Option<Index>)
    requires host.Valid() && host.Stores(stored, r)
    modifies host, host.fate.Keys, if stored.Some? then {stored.value} else {}
    ensures host.Valid() && host.Observed() == UnlockView(old(host.Observed()), r)
    ensures reply == UnlockReply(old(host.Observed()), r)
    ensures entries == if reply.Unlocked? then r.content else None
  {
    UnlockAnswers(host.Observed(), r);
    reply := host.Unlock(r, stored);
    if !reply.Unlocked? {
      return reply, None;
    }
    var index := host.index[r.name];
    var requests;
    entries, requests := Pages.FetchIndex(reply.count, (k: nat, offset: nat) => Pages.PageOf(index, offset, limit), index, limit);
  }

  lemma ContinuesOn(a: map<array<bv8>, Option<Name>>, b: map<array<bv8>, Option<Name>>, c: map<array<bv8>, Option<Name>>)
    requires Continues(a, b) && Continues(b, c)
    ensures Continues(a, c)
  {}

  /** Buffers stay on record, and one that left stays out. */
  ghost predicate Continues(before: map<array<bv8>, Option<Name>>, after: map<array<bv8>, Option<Name>>) {
    forall b | b in before :: b in after && (before[b].None? ==> after[b].None?)
  }

  // ---------------------------------------------------------------- whole sessions

  datatype Op = Unlock(r: Request) | Expire(name: Name) | Lock

  function After(v: View, ops: seq<Op>): View {
    if ops == [] then v
    else
      var n := |ops| - 1;
      Step(After(v, ops[..n]), ops[n])
  }

  function Step(v: View, op: Op): View {
    match op
    case Unlock(r) => UnlockView(v, r)
    case Expire(name) => Forgotten(v, name)
    case Lock => Locked(v)
  }

  /** Expiry takes nothing but the password; a lock takes everything. */
  lemma ExpiryAndLock(v: View, ops: seq<Op>)
    ensures forall name :: After(v, ops + [Expire(name)]).index == After(v, ops).index
    ensures After(v, ops + [Lock]).index == map[] && After(v, ops + [Lock]).cached == map[]
    ensures After(v, ops + [Lock]).generation == After(v, ops).generation + 1
  {
    forall op ensures After(v, ops + [op]) == Step(After(v, ops), op) {
      assert (ops + [op])[..|ops|] == ops;
    }
  }

  /** As long as the generation stays, so does every index. */
  lemma {:induction false} GenerationTellsIndex(v: View, ops: seq<Op>)
    ensures After(v, ops).generation >= v.generation
    ensures After(v, ops).generation == v.generation ==> After(v, ops).index == v.index
  {
    if ops != [] {
      GenerationTellsIndex(v, ops[..|ops| - 1]);
    }
  }

  /** Nothing in the run took the password of `name` away. */
  predicate Keeps(op: Op, name: Name, pw: Secret) {
    match op
    case Unlock(r) => r.name == name ==> r.opens(pw) && r.typed.None?
    case Expire(n) => n != name
    case Lock => false
  }

  /** Operation `i` is a typed password for `name`, and everything since has kept it. */
  ghost predicate TypedAt(ops: seq<Op>, i: nat, name: Name, pw: Secret)
    requires i < |ops|
  {
    && ops[i].Unlock? && ops[i].r.name == name && ops[i].r.typed == Some(pw) && ops[i].r.opens(pw)
    && forall k | i < k < |ops| :: Keeps(ops[k], name, pw)
  }

  /** A password is held at the end of a session exactly when it was typed, opened the database, and then
      neither expired, failed, was replaced nor was locked away. */
  lemma {:induction false} HeldIff(v: View, ops: seq<Op>, name: Name, pw: Secret)
    requires name !in v.cached
    ensures name in After(v, ops).cached && After(v, ops).cached[name] == pw
       <==> exists i :: 0 <= i < |ops| && TypedAt(ops, i, name, pw)
  {
    if ops != [] {
      var n := |ops| - 1;
      var rest, op := ops[..n], ops[n];
      HeldIff(v, rest, name, pw);
      var u := After(v, rest);
      if i: nat :| i < |ops| && TypedAt(ops, i, name, pw) {
        if i < n {
          assert TypedAt(rest, i, name, pw);
          assert Keeps(op, name, pw);
        }
      }
      if name in After(v, ops).cached && After(v, ops).cached[name] == pw {
        if op.Unlock? && op.r.name == name && op.r.typed.Some? {
          assert TypedAt(ops, n, name, pw);
        } else {
          var i: nat :| i < n && TypedAt(rest, i, name, pw);
          assert TypedAt(ops, i, name, pw);
        }
      }
    }
  }
}
