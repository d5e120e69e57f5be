/** The monitor of an inode with its condition variables as `cond_wait`,
    `cond_signal` and `cond_broadcast` make them: a queue of semaphores, one for
    each waiting thread, initially 0. It does what `RwMonitor` does.

    A waiting thread gives up the lock, brings its own semaphore down, and takes
    the lock again. The signal may come before it has got as far as the semaphore,
    when it sleeps there, or before it has tested the value again. A broadcast is
    one signal after the other. */
module CondVars {
  import opened Common
  import opened RwMonitor

  /** Where a thread is; `w` tells for which of the two conditions it waits. */
  datatype Spot =
    | At(c: Pc)        // not in cond_wait, or about to take the lock again
    | Down(w: bool)    // about to test its semaphore
    | Asleep(w: bool)  // blocked on its semaphore
    | Casting          // in cond_broadcast

  datatype Low = Low(
    spot: map<Tid, Spot>, value: map<Tid, nat>, holder: set<Tid>, n: Counts,
    okToRead: seq<Tid>, okToWrite: seq<Tid>, caster: Option<Tid>)

  // --- the steps ---------------------------------------------------------

  predicate CanMove(l: Low, t: Tid) {
    && t in l.spot && t in l.value && !l.spot[t].Asleep?
    && (l.spot[t].At? ==> l.spot[t].c != RdWait && l.spot[t].c != WrWait)
    && (l.spot[t].At? && WantsLock(l.spot[t].c) ==> l.holder == {})
  }

  function Waiting(w: bool): Pc { if w then WrWait else RdWait }
  function Woken(w: bool): Pc { if w then WrWoken else RdWoken }

  function Into(c: Pc): Spot {
    if c == RdWait then Down(false) else if c == WrWait then Down(true) else At(c)
  }

  /** A step between two points outside `sema_down`; entering `cond_wait` makes a
      new semaphore. */
  function Go(l: Low, t: Tid, asWriter: bool): Low
    requires CanMove(l, t) && l.spot[t].At?
  {
    var c := l.spot[t].c;
    var (c', n') := Local(l.n, c, asWriter);
    Low(l.spot[t := Into(c')],
        if c' == RdBlock || c' == WrBlock then l.value[t := 0] else l.value,
        if WantsLock(c) then l.holder + {t} else if Releases(c) then l.holder - {t} else l.holder,
        n',
        if c' == RdBlock then l.okToRead + [t] else l.okToRead,
        if c' == WrBlock then l.okToWrite + [t] else l.okToWrite,
        l.caster)
  }

  /** `sema_up` on the semaphore of `u`. */
  function Up(l: Low, u: Tid): Low
    requires u in l.spot && u in l.value
  {
    l.(value := l.value[u := l.value[u] + 1],
       spot := if l.spot[u].Asleep? then l.spot[u := Down(l.spot[u].w)] else l.spot)
  }

  /** `cond_signal (&ok_to_write)`. */
  function SignalOne(l: Low): Low {
    if l.okToWrite == [] then l
    else
      var u := l.okToWrite[0];
      if u in l.spot && u in l.value then Up(l, u).(okToWrite := l.okToWrite[1..]) else l
  }

  /** One turn of the loop of `cond_broadcast (&ok_to_read)`. */
  function Cast(l: Low, t: Tid): Low {
    if l.okToRead == [] then l.(spot := l.spot[t := At(WrFree)], caster := None)
    else
      var u := l.okToRead[0];
      if u in l.spot && u in l.value then Up(l, u).(okToRead := l.okToRead[1..]) else l
  }

  /** `sema_down` on the thread's own semaphore. */
  function Test(l: Low, t: Tid): Low
    requires t in l.spot && t in l.value && l.spot[t].Down?
  {
    var w := l.spot[t].w;
    if l.value[t] > 0 then l.(value := l.value[t := l.value[t] - 1], spot := l.spot[t := At(Woken(w))])
    else l.(spot := l.spot[t := Asleep(w)])
  }

  function Act(l: Low, t: Tid, asWriter: bool): Low
    requires CanMove(l, t)
  {
    match l.spot[t]
    case Down(w) => Test(l, t)
    case Casting => Cast(l, t)
    case Asleep(w) => l
    case At(c) =>
      var l1 := Go(l, t, asWriter);
      if c == RdExit && l1.n.activeReaders == 0 && l1.n.waitingWriters > 0 then SignalOne(l1)
      else if c == WrExit && l1.n.waitingWriters > 0 then SignalOne(l1)
      else if c == WrExit && l1.n.waitingReaders > 0 then l1.(spot := l1.spot[t := Casting], caster := Some(t))
      else l1
  }

  function Begin(threads: set<Tid>): Low {
    Low(map t | t in threads :: At(Outside), map t | t in threads :: 0, {}, Counts(0, 0, 0, 0), [], [], None)
  }

  function Run(l: Low, schedule: seq<Choice>): Low
    decreases |schedule|
  {
    if schedule == [] then l
    else
      var c := schedule[0];
      Run(if CanMove(l, c.t) then Act(l, c.t, c.asWriter) else l, schedule[1..])
  }

  // --- what the threads look like from the monitor -------------------------

  /** The queue of readers; a broadcast has emptied it once it has begun. */
  function Readers(l: Low): seq<Tid> {
    if l.caster.Some? then [] else l.okToRead
  }

  function Queue(l: Low, w: bool): seq<Tid> {
    if w then l.okToWrite else Readers(l)
  }

  function Seen(l: Low, t: Tid): Pc
    requires t in l.spot
  {
    match l.spot[t]
    case At(c) => c
    case Casting => WrFree
    case Down(w) => if t in Queue(l, w) then Waiting(w) else Woken(w)
    case Asleep(w) => if t in Queue(l, w) then Waiting(w) else Woken(w)
  }

  ghost function Abs(l: Low): State {
    State(map t | t in l.spot :: Seen(l, t), l.holder, l.n, Readers(l), l.okToWrite)
  }

  // --- the invariant -----------------------------------------------------

  /** The real queue for condition `w`. */
  function Listed(l: Low, w: bool): seq<Tid> {
    if w then l.okToWrite else l.okToRead
  }

  /** The semaphore of a waiting thread is 1 exactly if it has been signalled, and
      then it does not sleep. */
  predicate SpotOk(l: Low, t: Tid)
    requires t in l.spot
  {
    && t in l.value
    && match l.spot[t]
       case At(c) => c != RdWait && c != WrWait && ((c == RdBlock || c == WrBlock) ==> l.value[t] == 0)
       case Casting => l.caster == Some(t)
       case Down(w) => l.value[t] == if t in Listed(l, w) then 0 else 1
       case Asleep(w) => l.value[t] == 0 && t in Listed(l, w)
  }

  /** While a broadcast goes on its thread holds the lock, and those that it has not
      come to yet wait. */
  ghost predicate CastOk(l: Low) {
    && (l.caster.Some? ==> l.caster.value in l.spot && l.spot[l.caster.value] == Casting)
    && (l.caster.Some? ==> Once(l.okToRead) && forall t | t in l.okToRead :: InDown(l, t, false))
  }

  predicate InDown(l: Low, t: Tid, w: bool) {
    t in l.spot && (l.spot[t] == Down(w) || l.spot[t] == Asleep(w))
  }

  ghost predicate Spots(l: Low) {
    CastOk(l) && forall t | t in l.spot :: SpotOk(l, t)
  }

  ghost predicate Good(l: Low) {
    Inv(Abs(l)) && Spots(l)
  }

  // --- every step is one of the monitor's, or none ---------------------------

  lemma LockAlone(s: State, t: Tid, u: Tid)
    requires LockInv(s) && t in s.pc && u in s.pc && HoldsLock(s.pc[t]) && HoldsLock(s.pc[u])
    ensures t == u
  {
    assert t in s.holder && u in s.holder;
    Singleton(s.holder, t);
  }

  lemma AbsIs(l: Low, s: State)
    requires s.pc.Keys == l.spot.Keys && (forall t | t in l.spot :: s.pc[t] == Seen(l, t))
    requires s.holder == l.holder && s.n == l.n && s.okToRead == Readers(l) && s.okToWrite == l.okToWrite
    ensures Abs(l) == s
  {
    assert Abs(l).pc == s.pc;
  }

  lemma SameAbs(l: Low, l': Low)
    requires l'.spot.Keys == l.spot.Keys && (forall t | t in l.spot :: Seen(l', t) == Seen(l, t))
    requires l'.holder == l.holder && l'.n == l.n && Readers(l') == Readers(l) && l'.okToWrite == l.okToWrite
    ensures Abs(l') == Abs(l)
  {
    assert Abs(l').pc == Abs(l).pc;
  }

  lemma TestSeen(l: Low, l': Low, t: Tid, u: Tid)
    requires t in l.spot && t in l.value && l.spot[t].Down? && SpotOk(l, t) && l' == Test(l, t) && u in l.spot
    ensures u in l'.spot && Seen(l', u) == Seen(l, u) && (SpotOk(l, u) ==> SpotOk(l', u))
  {
  }

  lemma TestKeeps(l: Low, l': Low, t: Tid)
    requires Spots(l) && CanMove(l, t) && l.spot[t].Down? && l' == Test(l, t)
    ensures Abs(l') == Abs(l) && Spots(l')
  {
    forall u | u in l.spot ensures u in l'.spot && Seen(l', u) == Seen(l, u) && SpotOk(l', u) {
      TestSeen(l, l', t, u);
    }
    SameAbs(l, l');
  }

  /** A semaphore goes up for the first thread of a queue. */
  ghost predicate Raised(l: Low, l': Low, u: Tid, w: bool) {
    && InDown(l, u, w) && u in l.value && l'.spot == l.spot[u := Down(w)] && l'.value == l.value[u := l.value[u] + 1]
    && Listed(l, w) != [] && Listed(l, w)[0] == u && Listed(l', w) == Listed(l, w)[1..]
    && Listed(l', !w) == Listed(l, !w) && l'.caster == l.caster && l'.holder == l.holder && l'.n == l.n
  }

  lemma UpRaises(l: Low, u: Tid, w: bool)
    requires InDown(l, u, w) && u in l.value && Listed(l, w) != [] && Listed(l, w)[0] == u
    ensures w ==> Raised(l, Up(l, u).(okToWrite := l.okToWrite[1..]), u, w)
    ensures !w ==> Raised(l, Up(l, u).(okToRead := l.okToRead[1..]), u, w)
  {
    assert l.spot[u] == Down(w) ==> l.spot == l.spot[u := Down(w)];
  }

  lemma RaisedSpot(l: Low, l': Low, u: Tid, w: bool, t: Tid)
    requires Raised(l, l', u, w) && Once(Listed(l, w)) && t in l.spot && SpotOk(l, t)
    ensures t in l'.spot && SpotOk(l', t)
  {
    OnceTail(Listed(l, w));
    assert u in Listed(l, w);
  }

  lemma CastSeen(l: Low, l': Low, u: Tid, t: Tid)
    requires Raised(l, l', u, false) && l.caster.Some? && t in l.spot
    ensures t in l'.spot && Seen(l', t) == Seen(l, t)
  {
  }

  lemma CastOne(l: Low, l': Low, u: Tid)
    requires Spots(l) && l.caster.Some? && Raised(l, l', u, false)
    ensures Abs(l') == Abs(l) && Spots(l')
  {
    forall x | x in l.spot ensures x in l'.spot && Seen(l', x) == Seen(l, x) && SpotOk(l', x) {
      CastSeen(l, l', u, x);
      RaisedSpot(l, l', u, false, x);
    }
    SameAbs(l, l');
    OnceTail(l.okToRead);
  }

  lemma CastEnds(l: Low, l': Low, t: Tid)
    requires Spots(l) && t in l.spot && l.spot[t].Casting? && l.okToRead == [] && l' == Cast(l, t)
    ensures Abs(l') == Abs(l) && Spots(l')
  {
    assert SpotOk(l, t);
    forall u | u in l.spot ensures u in l'.spot && Seen(l', u) == Seen(l, u) && SpotOk(l', u) {
      assert SpotOk(l, u);
    }
    SameAbs(l, l');
  }

  lemma CastKeeps(l: Low, l': Low, t: Tid)
    requires Spots(l) && CanMove(l, t) && l.spot[t].Casting? && l' == Cast(l, t)
    ensures Abs(l') == Abs(l) && Spots(l')
  {
    assert SpotOk(l, t);
    if l.okToRead == [] {
      CastEnds(l, l', t);
    } else {
      var u := l.okToRead[0];
      assert u in l.okToRead && SpotOk(l, u);
      UpRaises(l, u, false);
      CastOne(l, l', u);
    }
  }

  /** While a broadcast goes on, nobody else works under the lock. */
  lemma CastBars(l: Low, t: Tid)
    requires LockInv(Abs(l)) && Spots(l) && l.caster.Some? && CanMove(l, t) && l.spot[t].At?
    ensures !HoldsLock(l.spot[t].c) && !WantsLock(l.spot[t].c)
  {
    var s, u := Abs(l), l.caster.value;
    assert s.pc[u] == WrFree && u in s.holder;
    if HoldsLock(l.spot[t].c) {
      LockAlone(s, t, u);
    }
  }

  /** Where a step that is not under the lock leads. */
  lemma LocalFree(n: Counts, c: Pc, w: bool)
    requires !HoldsLock(c) && !WantsLock(c) && c != RdWait && c != WrWait
    ensures var c' := Local(n, c, w).0;
      c' != RdBlock && c' != WrBlock && c' != RdWait && c' != WrWait && !Releases(c) && !HoldsLock(c')
  {
  }

  lemma LocalWait(n: Counts, c: Pc, w: bool)
    requires c != RdWait && c != WrWait
    ensures var c' := Local(n, c, w).0; (c' == RdWait <==> c == RdBlock) && (c' == WrWait <==> c == WrBlock)
    ensures var c' := Local(n, c, w).0; c' == RdBlock || c' == WrBlock ==> HoldsLock(c)
  {
  }

  /** A thread that is about to wait is on its queue. */
  lemma BlockQueued(l: Low, t: Tid)
    requires QueueInv(Abs(l)) && t in l.spot
    ensures l.spot[t] == At(RdBlock) ==> t in Readers(l)
    ensures l.spot[t] == At(WrBlock) ==> t in l.okToWrite
  {
    assert Abs(l).pc[t] == Seen(l, t);
  }

  lemma GoSeen(l: Low, l1: Low, t: Tid, w: bool, x: Tid)
    requires LockInv(Abs(l)) && QueueInv(Abs(l)) && Spots(l) && CanMove(l, t) && l.spot[t].At? && l1 == Go(l, t, w)
    requires x in l.spot
    ensures Readers(l1) == if Local(l.n, l.spot[t].c, w).0 == RdBlock then Readers(l) + [t] else Readers(l)
    ensures x in l1.spot && SpotOk(l1, x) && Seen(l1, x) == if x == t then Local(l.n, l.spot[t].c, w).0 else Seen(l, x)
  {
    var c := l.spot[t].c;
    assert SpotOk(l, t) && SpotOk(l, x);
    LocalWait(l.n, c, w);
    BlockQueued(l, t);
    if l.caster.Some? {
      CastBars(l, t);
      LocalFree(l.n, c, w);
    }
  }

  /** `l1` is `l` after `t` has gone on to `c`. */
  ghost predicate Gone(l: Low, l1: Low, t: Tid, c: Pc, n: Counts, holder: set<Tid>) {
    && l1.spot == l.spot[t := Into(c)] && l1.n == n && l1.holder == holder && l1.caster == l.caster
    && l1.okToRead == (if c == RdBlock then l.okToRead + [t] else l.okToRead)
    && l1.okToWrite == (if c == WrBlock then l.okToWrite + [t] else l.okToWrite)
  }

  /** And so is `s1`, in the monitor. */
  ghost predicate MovedOn(s: State, s1: State, t: Tid, c: Pc, n: Counts, holder: set<Tid>) {
    && s1.pc == s.pc[t := c] && s1.n == n && s1.holder == holder
    && s1.okToRead == (if c == RdBlock then s.okToRead + [t] else s.okToRead)
    && s1.okToWrite == (if c == WrBlock then s.okToWrite + [t] else s.okToWrite)
  }

  lemma SameGo(l: Low, l1: Low, s: State, t: Tid, w: bool) returns (c: Pc, n: Counts, holder: set<Tid>)
    requires CanMove(l, t) && l.spot[t].At? && l1 == Go(l, t, w)
    requires Enabled(s, t) && s.pc[t] == l.spot[t].c && s.n == l.n && s.holder == l.holder
    ensures c == Local(l.n, l.spot[t].c, w).0
    ensures Gone(l, l1, t, c, n, holder) && MovedOn(s, Move(s, t, w), t, c, n, holder)
  {
    c, n, holder := Local(l.n, l.spot[t].c, w).0, l1.n, l1.holder;
  }

  lemma GoneAbs(l: Low, l1: Low, s1: State, t: Tid, c: Pc, n: Counts, holder: set<Tid>)
    requires t in l.spot && Gone(l, l1, t, c, n, holder) && MovedOn(Abs(l), s1, t, c, n, holder)
    requires Readers(l1) == if c == RdBlock then Readers(l) + [t] else Readers(l)
    requires forall x | x in l.spot :: x in l1.spot && Seen(l1, x) == if x == t then c else Seen(l, x)
    ensures Abs(l1) == s1
  {
    forall x | x in l1.spot ensures s1.pc[x] == Seen(l1, x) {
      assert x in l.spot && Abs(l).pc[x] == Seen(l, x);
    }
    AbsIs(l1, s1);
  }

  lemma GoAbs(l: Low, l1: Low, t: Tid, w: bool)
    requires LockInv(Abs(l)) && QueueInv(Abs(l)) && Spots(l) && CanMove(l, t) && l.spot[t].At? && l1 == Go(l, t, w)
    ensures Enabled(Abs(l), t) && Abs(l1) == Move(Abs(l), t, w)
  {
    assert SpotOk(l, t) && Abs(l).pc[t] == l.spot[t].c;
    var c, n, holder := SameGo(l, l1, Abs(l), t, w);
    forall x | x in l.spot ensures x in l1.spot && Seen(l1, x) == if x == t then c else Seen(l, x) {
      GoSeen(l, l1, t, w, x);
    }
    GoSeen(l, l1, t, w, t);
    GoneAbs(l, l1, Move(Abs(l), t, w), t, c, n, holder);
  }

  lemma GoMoves(l: Low, l1: Low, t: Tid, w: bool)
    requires LockInv(Abs(l)) && QueueInv(Abs(l)) && Spots(l) && CanMove(l, t) && l.spot[t].At? && l1 == Go(l, t, w)
    ensures Enabled(Abs(l), t) && Abs(l1) == Move(Abs(l), t, w) && Spots(l1)
  {
    GoAbs(l, l1, t, w);
    forall x | x in l1.spot ensures SpotOk(l1, x) {
      assert x in l.spot;
      GoSeen(l, l1, t, w, x);
    }
    GoCast(l, l1, t, w);
  }

  lemma GoCast(l: Low, l1: Low, t: Tid, w: bool)
    requires LockInv(Abs(l)) && Spots(l) && CanMove(l, t) && l.spot[t].At? && l1 == Go(l, t, w)
    ensures CastOk(l1)
  {
    if l.caster.Some? {
      CastBars(l, t);
      LocalFree(l.n, l.spot[t].c, w);
      assert SpotOk(l, t);
    }
  }

  /** `t` leaves the monitor and has the lock: no broadcast goes on, and whoever is
      queued is in `sema_down`. */
  lemma QueuedDown(l: Low, t: Tid, u: Tid, w: bool)
    requires LockInv(Abs(l)) && QueueInv(Abs(l)) && Spots(l) && CanMove(l, t)
    requires (l.spot[t] == At(RdExit) || l.spot[t] == At(WrExit)) && u in Queue(l, w)
    ensures u != t && InDown(l, u, w) && u in l.value
  {
    var s := Abs(l);
    assert s.pc[t] == l.spot[t].c && u in s.pc && s.pc[u] == Seen(l, u) && SpotOk(l, u);
    if s.pc[u] == RdBlock || s.pc[u] == WrBlock {
      LockAlone(s, t, u);
    }
  }

  lemma SignalSeen(l1: Low, l2: Low, u: Tid, x: Tid)
    requires Raised(l1, l2, u, true) && Once(l1.okToWrite) && x in l1.spot
    ensures x in l2.spot && Seen(l2, x) == if x == u then WrWoken else Seen(l1, x)
  {
    OnceTail(l1.okToWrite);
  }

  lemma SignalAbs(l1: Low, l2: Low, u: Tid)
    requires l1.caster.None? && Once(l1.okToWrite) && Raised(l1, l2, u, true)
    ensures Abs(l2) == SignalWriter(Abs(l1))
  {
    var s := SignalWriter(Abs(l1));
    forall x | x in l2.spot ensures s.pc[x] == Seen(l2, x) {
      SignalSeen(l1, l2, u, x);
    }
    AbsIs(l2, s);
  }

  lemma SignalSpots(l1: Low, l2: Low, u: Tid)
    requires Spots(l1) && l1.caster.None? && Once(l1.okToWrite) && Raised(l1, l2, u, true)
    ensures Spots(l2)
  {
    forall x | x in l2.spot ensures SpotOk(l2, x) {
      RaisedSpot(l1, l2, u, true, x);
    }
  }

  /** A thread that leaves signals a writer. */
  lemma ExitSignals(l: Low, l1: Low, l2: Low, t: Tid, w: bool)
    requires LockInv(Abs(l)) && QueueInv(Abs(l)) && Spots(l) && CanMove(l, t)
    requires (l.spot[t] == At(RdExit) || l.spot[t] == At(WrExit)) && l1 == Go(l, t, w)
    requires Spots(l1) && l2 == SignalOne(l1)
    ensures Abs(l2) == SignalWriter(Abs(l1)) && Spots(l2)
  {
    ExitKeeps(l, l1, t, w);
    if l.okToWrite != [] {
      var u := l.okToWrite[0];
      FrontDown(l, t, u);
      UpRaises(l1, u, true);
      SignalAbs(l1, l2, u);
      SignalSpots(l1, l2, u);
    }
  }

  /** Leaving changes nothing but the thread's own place. */
  lemma ExitKeeps(l: Low, l1: Low, t: Tid, w: bool)
    requires CanMove(l, t) && (l.spot[t] == At(RdExit) || l.spot[t] == At(WrExit)) && l1 == Go(l, t, w)
    ensures l1.okToWrite == l.okToWrite && l1.okToRead == l.okToRead && l1.caster == l.caster && l1.value == l.value
    ensures t in l1.spot && l1.spot == l.spot[t := l1.spot[t]]
    ensures l.spot[t] == At(WrExit) ==> l1.spot[t] == At(WrFree)
  {
  }

  lemma FrontDown(l: Low, t: Tid, u: Tid)
    requires LockInv(Abs(l)) && QueueInv(Abs(l)) && Spots(l) && CanMove(l, t) && u in l.okToWrite
    requires l.spot[t] == At(RdExit) || l.spot[t] == At(WrExit)
    ensures u != t && InDown(l, u, true) && u in l.value && l.caster.None? && Once(l.okToWrite)
  {
    if l.caster.Some? {
      CastBars(l, t);
    }
    assert u in Queue(l, true);
    QueuedDown(l, t, u, true);
  }

  lemma CastSpot(l1: Low, l2: Low, t: Tid, x: Tid)
    requires t in l1.spot && l1.spot[t] == At(WrFree) && l2 == l1.(spot := l1.spot[t := Casting], caster := Some(t))
    requires x in l1.spot && SpotOk(l1, x) && l1.caster.None? && (x in l1.okToRead ==> InDown(l1, x, false))
    ensures SpotOk(l2, x) && Seen(l2, x) == if x in l1.okToRead then RdWoken else Seen(l1, x)
  {
  }

  ghost predicate CastStart(l1: Low, l2: Low, t: Tid) {
    && l1.caster.None? && (forall x | x in l1.okToRead :: InDown(l1, x, false))
    && t in l1.spot && l1.spot[t] == At(WrFree) && l2 == l1.(spot := l1.spot[t := Casting], caster := Some(t))
  }

  lemma CastAbs(l1: Low, l2: Low, t: Tid)
    requires Spots(l1) && CastStart(l1, l2, t)
    ensures Abs(l2) == BroadcastReaders(Abs(l1))
  {
    var s := BroadcastReaders(Abs(l1));
    forall x | x in l2.spot ensures s.pc[x] == Seen(l2, x) {
      CastSpot(l1, l2, t, x);
    }
    AbsIs(l2, s);
  }

  lemma CastSpots(l1: Low, l2: Low, t: Tid)
    requires Spots(l1) && CastStart(l1, l2, t) && Once(l1.okToRead)
    ensures Spots(l2)
  {
    forall x | x in l2.spot ensures SpotOk(l2, x) {
      CastSpot(l1, l2, t, x);
    }
  }

  /** Or begins to signal all readers. */
  lemma ExitCasts(l: Low, l1: Low, l2: Low, t: Tid, w: bool)
    requires LockInv(Abs(l)) && QueueInv(Abs(l)) && Spots(l) && CanMove(l, t) && l.spot[t] == At(WrExit)
    requires l1 == Go(l, t, w) && l2 == l1.(spot := l1.spot[t := Casting], caster := Some(t)) && Spots(l1)
    ensures Abs(l2) == BroadcastReaders(Abs(l1)) && Spots(l2)
  {
    if l.caster.Some? {
      CastBars(l, t);
    }
    forall x | x in l.okToRead ensures InDown(l1, x, false) {
      assert x in Queue(l, false);
      QueuedDown(l, t, x, false);
    }
    CastAbs(l1, l2, t);
    CastSpots(l1, l2, t);
  }

  /** A step of the program is a step of the monitor, or changes nothing there. */
  lemma ActSimulates(l: Low, t: Tid, w: bool)
    requires Good(l) && CanMove(l, t)
    ensures Good(Act(l, t, w))
    ensures Abs(Act(l, t, w)) == Abs(l) || (Enabled(Abs(l), t) && Abs(Act(l, t, w)) == Next(Abs(l), t, w))
  {
    var l' := Act(l, t, w);
    match l.spot[t]
    case Down(_) => TestKeeps(l, l', t);
    case Casting => CastKeeps(l, l', t);
    case At(c) =>
      GoMoves(l, Go(l, t, w), t, w);
      AtSimulates(l, Go(l, t, w), t, w);
      InvStep(Abs(l), t, w);
  }

  datatype Waking = Nobody | AWriter | AllReaders

  /** The program and the monitor decide alike whom to wake. */
  lemma SameWaking(l: Low, l1: Low, s: State, s1: State, t: Tid, w: bool) returns (k: Waking, l': Low, s': State)
    requires CanMove(l, t) && l.spot[t].At? && l1 == Go(l, t, w)
    requires Enabled(s, t) && s.pc[t] == l.spot[t].c && s1 == Move(s, t, w) && s1.n == l1.n
    ensures l' == Act(l, t, w) && s' == Next(s, t, w)
    ensures k.Nobody? ==> l' == l1 && s' == s1
    ensures k.AWriter? ==>
      (l.spot[t] == At(RdExit) || l.spot[t] == At(WrExit)) && l' == SignalOne(l1) && s' == SignalWriter(s1)
    ensures k.AllReaders? ==>
      && l.spot[t] == At(WrExit) && l' == l1.(spot := l1.spot[t := Casting], caster := Some(t))
      && s' == BroadcastReaders(s1)
  {
    l', s' := Act(l, t, w), Next(s, t, w);
    var c, n := l.spot[t].c, l1.n;
    k := if (c == RdExit && n.activeReaders == 0 && n.waitingWriters > 0) || (c == WrExit && n.waitingWriters > 0)
         then AWriter
         else if c == WrExit && n.waitingReaders > 0 then AllReaders
         else Nobody;
  }

  lemma AtSimulates(l: Low, l1: Low, t: Tid, w: bool)
    requires LockInv(Abs(l)) && QueueInv(Abs(l)) && Spots(l) && CanMove(l, t) && l.spot[t].At?
    requires l1 == Go(l, t, w) && Enabled(Abs(l), t) && Abs(l1) == Move(Abs(l), t, w) && Spots(l1)
    ensures Abs(Act(l, t, w)) == Next(Abs(l), t, w) && Spots(Act(l, t, w))
  {
    assert Abs(l).pc[t] == l.spot[t].c && Abs(l1).n == l1.n;
    var k, l', s' := SameWaking(l, l1, Abs(l), Abs(l1), t, w);
    match k
    case Nobody =>
    case AWriter => ExitSignals(l, l1, l', t, w);
    case AllReaders => ExitCasts(l, l1, l', t, w);
  }

  // --- whole runs --------------------------------------------------------

  lemma BeginGood(threads: set<Tid>)
    ensures Good(Begin(threads)) && Abs(Begin(threads)) == Init(threads)
  {
    assert Abs(Begin(threads)).pc == Init(threads).pc;
    InvInit(threads);
  }

  /** Every run of the program is a run of the monitor. */
  lemma {:induction false} Refines(l: Low, schedule: seq<Choice>) returns (high: seq<Choice>)
    requires Good(l)
    ensures Good(Run(l, schedule)) && Abs(Run(l, schedule)) == Exec(Abs(l), high)
    decreases |schedule|
  {
    high := [];
    if schedule != [] {
      var c := schedule[0];
      if CanMove(l, c.t) {
        ActSimulates(l, c.t, c.asWriter);
        var l' := Act(l, c.t, c.asWriter);
        high := Refines(l', schedule[1..]);
        if Abs(l') != Abs(l) {
          assert ([c] + high)[1..] == high;
          high := [c] + high;
        }
      } else {
        high := Refines(l, schedule[1..]);
      }
    }
  }

  /** So whatever holds of every state of the monitor holds of the program. */
  lemma ProgramIsMonitor(threads: set<Tid>, schedule: seq<Choice>)
    ensures var l := Run(Begin(threads), schedule); Good(l) && Reachable(Abs(l))
  {
    BeginGood(threads);
    var high := Refines(Begin(threads), schedule);
  }

  /** No signal is lost: a thread that sleeps on its semaphore is still on the queue
      of its condition, also while a broadcast goes on. */
  lemma SleepersAreListed(threads: set<Tid>, schedule: seq<Choice>, t: Tid)
    requires var l := Run(Begin(threads), schedule); t in l.spot && l.spot[t].Asleep?
    ensures var l := Run(Begin(threads), schedule); t in Listed(l, l.spot[t].w) && t in l.value && l.value[t] == 0
  {
    ProgramIsMonitor(threads, schedule);
    assert SpotOk(Run(Begin(threads), schedule), t);
  }

  /** No deadlock with these condition variables either. */
  lemma ProgramMoves(threads: set<Tid>, schedule: seq<Choice>, t: Tid)
    requires var l := Run(Begin(threads), schedule); t in l.spot && l.spot[t] != At(Outside)
    ensures var l := Run(Begin(threads), schedule); exists u :: u in l.spot && l.spot[u] != At(Outside) && CanMove(l, u)
  {
    var l := Run(Begin(threads), schedule);
    ProgramIsMonitor(threads, schedule);
    assert Abs(l).pc[t] == Seen(l, t);
    NoDeadlock(Abs(l), t);
    var u :| u in Abs(l).pc && Abs(l).pc[u] != Outside && Enabled(Abs(l), u);
    Awaken(l, u);
  }

  lemma Awaken(l: Low, u: Tid)
    requires Spots(l) && u in l.spot && Seen(l, u) != Outside && Enabled(Abs(l), u)
    ensures exists x :: x in l.spot && l.spot[x] != At(Outside) && CanMove(l, x)
  {
    assert SpotOk(l, u) && Abs(l).pc[u] == Seen(l, u);
    if l.spot[u].Asleep? {
      var x := l.caster.value;
      assert SpotOk(l, x) && CanMove(l, x);
    } else {
      assert CanMove(l, u);
    }
  }

  // --- what a thread does alone --------------------------------------------

  function Do(l: Low, c: Choice): Low {
    if CanMove(l, c.t) then Act(l, c.t, c.asWriter) else l
  }

  lemma RunFirst(l: Low, t: Tid, w: bool, n: nat)
    requires n > 0
    ensures Run(l, Alone(t, w, n)) == Run(Do(l, Choice(t, w)), Alone(t, w, n - 1))
  {
    assert Alone(t, w, n)[0] == Choice(t, w) && Alone(t, w, n)[1..] == Alone(t, w, n - 1);
  }

  lemma {:induction false} RunSplit(l: Low, t: Tid, w: bool, n: nat, m: nat)
    ensures Run(l, Alone(t, w, n + m)) == Run(Run(l, Alone(t, w, n)), Alone(t, w, m))
    decreases n
  {
    if n > 0 {
      RunFirst(l, t, w, n + m);
      RunFirst(l, t, w, n);
      RunSplit(Do(l, Choice(t, w)), t, w, n - 1, m);
    }
  }

  lemma RunTwo(l: Low, l1: Low, l2: Low, t: Tid, w: bool)
    requires l1 == Do(l, Choice(t, w)) && l2 == Do(l1, Choice(t, w))
    ensures l2 == Run(l, Alone(t, w, 2))
  {
    RunFirst(l, t, w, 2);
    RunFirst(l1, t, w, 1);
  }

  /** Some run of the program leads to `l`. */
  ghost predicate Reached(l: Low) {
    exists threads, schedule :: l == Run(Begin(threads), schedule)
  }

  lemma ReachedGood(l: Low)
    requires Reached(l)
    ensures Good(l)
  {
    var threads, schedule :| l == Run(Begin(threads), schedule);
    ProgramIsMonitor(threads, schedule);
  }

  lemma {:induction false} RunMore(l: Low, schedule: seq<Choice>, c: Choice)
    ensures Run(l, schedule + [c]) == Do(Run(l, schedule), c)
    decreases |schedule|
  {
    if schedule == [] {
      assert [] + [c] == [c] && [c][1..] == [];
    } else {
      assert (schedule + [c])[0] == schedule[0] && (schedule + [c])[1..] == schedule[1..] + [c];
      RunMore(Do(l, schedule[0]), schedule[1..], c);
    }
  }

  lemma ReachedStep(l: Low, c: Choice)
    requires Reached(l)
    ensures Reached(Do(l, c))
  {
    var threads, schedule :| l == Run(Begin(threads), schedule);
    RunMore(Begin(threads), schedule, c);
  }

  /** Points that are the same in the program and in the monitor. */
  predicate Direct(c: Pc) { c != RdWait && c != WrWait && c != RdWoken && c != WrWoken && c != WrFree }

  lemma SeenAt(l: Low, t: Tid)
    requires t in l.spot && Direct(Seen(l, t))
    ensures l.spot[t] == At(Seen(l, t))
  {
  }

  /** At such a point a step of the program is a step of the monitor. */
  lemma LowStep(l: Low, s: State, t: Tid, w: bool) returns (l': Low, s': State)
    requires Reached(l) && s == Abs(l) && t in l.spot && (l.spot[t].At? || Direct(s.pc[t])) && Enabled(s, t)
    ensures l' == Do(l, Choice(t, w)) && s' == Take(s, Choice(t, w)) && s' == Abs(l') && Reached(l')
  {
    ReachedGood(l);
    assert s.pc[t] == Seen(l, t) && SpotOk(l, t);
    if Direct(s.pc[t]) {
      SeenAt(l, t);
    }
    l', s' := Act(l, t, w), Next(s, t, w);
    GoMoves(l, Go(l, t, w), t, w);
    AtSimulates(l, Go(l, t, w), t, w);
    ReachedStep(l, Choice(t, w));
  }

  /** Two steps, the second from a point that is the same in both. */
  lemma LowTwo(l: Low, s: State, s1: State, s2: State, t: Tid, w: bool) returns (l2: Low)
    requires Reached(l) && s == Abs(l) && t in l.spot && (l.spot[t].At? || Direct(s.pc[t])) && Enabled(s, t)
    requires s1 == Take(s, Choice(t, w)) && t in s1.pc && Direct(s1.pc[t]) && Enabled(s1, t)
    requires s2 == Take(s1, Choice(t, w))
    ensures l2 == Run(l, Alone(t, w, 2)) && s2 == Abs(l2) && Reached(l2)
  {
    var l1, same1 := LowStep(l, s, t, w);
    var same2;
    l2, same2 := LowStep(l1, s1, t, w);
    RunTwo(l, l1, l2, t, w);
  }

  /** The way of a check-in is clear. */
  predicate Clear(n: Counts, w: bool) {
    n.activeWriters + (if w then n.activeReaders else n.waitingWriters) == 0
  }

  lemma Counted(s: State)
    requires Inv(s)
    ensures NonNegative(s.n)
  {
  }

  lemma ReachedCounts(l: Low)
    requires Reached(l)
    ensures NonNegative(l.n) && QueueInv(Abs(l))
  {
    ReachedGood(l);
    Counted(Abs(l));
  }

  lemma AtPoint(l: Low, s: State, t: Tid, c: Pc, n: Counts, held: bool)
    requires t in s.pc && CameTo(s, Abs(l), t, c, n, held)
    ensures t in l.spot && Abs(l).pc[t] == c && l.n == n && l.holder == if held then {t} else {}
  {
    assert t in Abs(l).pc && Abs(l).n == l.n && Abs(l).holder == l.holder;
  }

  lemma LowToTest(l: Low, s: State, t: Tid, w: bool) returns (l2: Low)
    requires Reached(l) && s == Abs(l) && t in l.spot && s.pc[t] == Outside && l.holder == {}
    ensures l2 == Run(l, Alone(t, w, 2)) && Reached(l2)
    ensures CameTo(s, Abs(l2), t, if w then WrTest else RdTest, s.n, true)
  {
    var c1, c2 := if w then WrEnter else RdEnter, if w then WrTest else RdTest;
    var s1 := AloneStep(s, t, w, c1, s.n, false);
    var s2 := AloneStep(s1, t, w, c2, s.n, true);
    CameThen(s, s1, s2, t, c1, s.n, false, c2, s.n, true);
    l2 := LowTwo(l, s, s1, s2, t, w);
  }

  lemma LowEnter(l: Low, s: State, t: Tid, w: bool) returns (l2: Low)
    requires Reached(l) && s == Abs(l) && t in l.spot && s.pc[t] == (if w then WrTest else RdTest) && l.holder == {t}
    requires Clear(s.n, w)
    ensures l2 == Run(l, Alone(t, w, 2)) && Reached(l2)
    ensures CameTo(s, Abs(l2), t, if w then Writing else Reading, More(s.n, w), false)
  {
    var c1, c2, n := if w then WrDone else RdDone, if w then Writing else Reading, More(s.n, w);
    var s1 := AloneStep(s, t, w, c1, n, true);
    var s2 := AloneStep(s1, t, w, c2, n, false);
    CameThen(s, s1, s2, t, c1, n, true, c2, n, false);
    l2 := LowTwo(l, s, s1, s2, t, w);
  }

  lemma LowWait(l: Low, s: State, t: Tid, w: bool) returns (l2: Low)
    requires Reached(l) && s == Abs(l) && t in l.spot && s.pc[t] == (if w then WrTest else RdTest) && l.holder == {t}
    requires s.n.activeWriters + (if w then s.n.activeReaders else s.n.waitingWriters) > 0
    ensures l2 == Run(l, Alone(t, w, 2)) && Reached(l2) && Queued(s, Abs(l2), t, w)
  {
    var s1 := BlockStep(s, t, w);
    var s2 := GoToSleep(s1, t, w);
    assert s.pc[t := s1.pc[t]][t := s2.pc[t]] == s.pc[t := s2.pc[t]];
    l2 := LowTwo(l, s, s1, s2, t, w);
  }

  /** A check-in of the program that finds nobody in its way ends in the activity. */
  lemma CheckinActive(l: Low, t: Tid, w: bool)
    requires Reached(l) && t in l.spot && l.spot[t] == At(Outside) && l.holder == {} && Clear(l.n, w)
    ensures var l' := Run(l, Alone(t, w, 4));
      && t in l'.spot && l'.spot[t] == At(if w then Writing else Reading) && l'.n == More(l.n, w) && l'.holder == {}
      && l'.okToWrite == l.okToWrite && Readers(l') == Readers(l)
  {
    var s := Abs(l);
    assert s.pc[t] == Outside;
    var l2 := LowToTest(l, s, t, w);
    AtPoint(l2, s, t, if w then WrTest else RdTest, s.n, true);
    var l4 := LowEnter(l2, Abs(l2), t, w);
    CameThen(s, Abs(l2), Abs(l4), t, if w then WrTest else RdTest, s.n, true,
             if w then Writing else Reading, More(s.n, w), false);
    NowActive(l, l4, t, w);
    RunSplit(l, t, w, 2, 2);
  }

  lemma NowActive(l: Low, l': Low, t: Tid, w: bool)
    requires t in l.spot && CameTo(Abs(l), Abs(l'), t, if w then Writing else Reading, More(l.n, w), false)
    ensures t in l'.spot && l'.spot[t] == At(if w then Writing else Reading) && l'.n == More(l.n, w) && l'.holder == {}
    ensures l'.okToWrite == l.okToWrite && Readers(l') == Readers(l)
  {
    assert Abs(l').n == l'.n && Abs(l').holder == l'.holder && Abs(l').okToWrite == l'.okToWrite;
    assert t in Abs(l').pc && Abs(l').pc[t] == Seen(l', t);
  }

  /** One that finds somebody in its way is at the end of its queue, and its semaphore
      is 0. */
  lemma CheckinQueued(l: Low, t: Tid, w: bool)
    requires Reached(l) && t in l.spot && l.spot[t] == At(Outside) && l.holder == {} && !Clear(l.n, w)
    ensures var l' := Run(l, Alone(t, w, 4));
      && InDown(l', t, w) && t in l'.value && l'.value[t] == 0 && l'.holder == {}
      && Queue(l', w) == Queue(l, w) + [t] && Queue(l', !w) == Queue(l, !w)
  {
    var s := Abs(l);
    assert s.pc[t] == Outside;
    ReachedCounts(l);
    var l2 := LowToTest(l, s, t, w);
    AtPoint(l2, s, t, if w then WrTest else RdTest, s.n, true);
    var l4 := LowWait(l2, Abs(l2), t, w);
    CameQueued(s, Abs(l2), Abs(l4), t, w, if w then WrTest else RdTest);
    NowQueued(l, l4, t, w);
    RunSplit(l, t, w, 2, 2);
  }

  lemma NowQueued(l: Low, l': Low, t: Tid, w: bool)
    requires Reached(l') && t in l.spot && Queued(Abs(l), Abs(l'), t, w)
    ensures InDown(l', t, w) && t in l'.value && l'.value[t] == 0 && l'.holder == {}
    ensures Queue(l', w) == Queue(l, w) + [t] && Queue(l', !w) == Queue(l, !w)
  {
    ReachedGood(l');
    assert t in Abs(l').pc && Abs(l').pc[t] == Seen(l', t) && SpotOk(l', t);
    assert Queue(l', w) == Queue(l, w) + [t];
    assert t in Queue(l', w);
  }

  /** `sema_down` returns with the unit that a signal has left, or sleeps. */
  lemma DownReturns(l: Low, t: Tid, w: bool)
    requires CanMove(l, t) && l.spot[t].Down?
    ensures var l', kind := Act(l, t, w), l.spot[t].w;
      && t in l'.spot && t in l'.value
      && if l.value[t] > 0 then l'.value[t] == l.value[t] - 1 && l'.spot[t] == At(if kind then WrWoken else RdWoken)
         else l'.value[t] == 0 && l'.spot[t] == Asleep(kind)
  {
  }

  /** A broadcast comes to its end. */
  lemma {:induction false} CastOut(l: Low, t: Tid, w: bool) returns (n: nat)
    requires Reached(l) && t in l.spot && l.spot[t] == Casting
    ensures var l' := Run(l, Alone(t, w, n));
      Reached(l') && Abs(l') == Abs(l) && t in l'.spot && l'.spot[t] == At(WrFree)
    decreases |l.okToRead|
  {
    ReachedGood(l);
    assert SpotOk(l, t);
    var l1 := Do(l, Choice(t, w));
    CastKeeps(l, l1, t);
    CastGoesOn(l, t, w);
    ReachedStep(l, Choice(t, w));
    if l.okToRead == [] {
      n := 1;
      assert Alone(t, w, 0) == [];
    } else {
      n := CastOut(l1, t, w);
      n := n + 1;
    }
    RunFirst(l, t, w, n);
  }

  lemma CastGoesOn(l: Low, t: Tid, w: bool)
    requires Spots(l) && t in l.spot && l.spot[t] == Casting && t in l.value
    ensures var l1 := Do(l, Choice(t, w));
      t in l1.spot && if l.okToRead == [] then l1.spot[t] == At(WrFree)
                      else l1.spot[t] == Casting && |l1.okToRead| < |l.okToRead|
  {
    assert SpotOk(l, t);
    if l.okToRead != [] {
      assert l.okToRead[0] in l.okToRead;
      assert SpotOk(l, l.okToRead[0]);
    }
  }

  lemma LowToExit(l: Low, s: State, t: Tid, w: bool) returns (l2: Low)
    requires Reached(l) && s == Abs(l) && t in l.spot && s.pc[t] == (if w then Writing else Reading) && l.holder == {}
    ensures l2 == Run(l, Alone(t, w, 2)) && Reached(l2)
    ensures CameTo(s, Abs(l2), t, if w then WrExit else RdExit, s.n, true)
  {
    var c1, c2 := if w then WrLeave else RdLeave, if w then WrExit else RdExit;
    var s1 := AloneStep(s, t, w, c1, s.n, false);
    var s2 := AloneStep(s1, t, w, c2, s.n, true);
    CameThen(s, s1, s2, t, c1, s.n, false, c2, s.n, true);
    l2 := LowTwo(l, s, s1, s2, t, w);
  }

  /** The step that leaves, before a broadcast goes on. */
  lemma LowExit(l: Low, s: State, t: Tid, w: bool) returns (l': Low)
    requires Reached(l) && s == Abs(l) && t in l.spot && s.pc[t] == (if w then WrExit else RdExit) && l.holder == {t}
    ensures l' == Do(l, Choice(t, w)) && Reached(l') && Leaves(s, Abs(l'), t, w)
    ensures t in l'.spot && (l'.spot[t] == Casting || l'.spot[t] == At(if w then WrFree else RdFree))
  {
    ReachedCounts(l);
    var s1 := ExitStep(s, t, w);
    var same;
    l', same := LowStep(l, s, t, w);
    assert t in l'.spot && s1.pc[t] == Seen(l', t);
    ExitSpot(l', t);
  }

  /** `t` has left the monitor but for the lock. */
  ghost predicate Leaves(s: State, s': State, t: Tid, w: bool) {
    && s'.holder == {t} && t in s'.pc && s'.n == Less(s.n, w) && s'.pc[t] == (if w then WrFree else RdFree)
    && LeftBy(s, s', t, s'.pc[t], Less(s.n, w), WritersWoken(s, w), ReadersWoken(s, w))
  }

  lemma ExitSpot(l: Low, t: Tid)
    requires t in l.spot && (Seen(l, t) == WrFree || Seen(l, t) == RdFree)
    ensures l.spot[t] == Casting || l.spot[t] == At(Seen(l, t))
  {
  }

  /** With the broadcast. */
  lemma LowLeave(l: Low, s: State, t: Tid, w: bool) returns (n: nat, l': Low)
    requires Reached(l) && s == Abs(l) && t in l.spot && s.pc[t] == (if w then WrExit else RdExit) && l.holder == {t}
    ensures l' == Run(l, Alone(t, w, n)) && Reached(l') && Leaves(s, Abs(l'), t, w) && t in l'.spot && l'.spot[t].At?
  {
    var l1 := LowExit(l, s, t, w);
    if l1.spot[t] == Casting {
      n := CastOut(l1, t, w);
    } else {
      n := 0;
      assert Alone(t, w, 0) == [];
    }
    l' := Run(l1, Alone(t, w, n));
    n := n + 1;
    RunFirst(l, t, w, n);
  }

  /** And the release of the lock. */
  lemma LowFree(l: Low, s: State, s0: State, t: Tid, w: bool) returns (l': Low)
    requires Reached(l) && s == Abs(l) && t in l.spot && l.spot[t].At? && t in s0.pc && Leaves(s0, s, t, w)
    ensures l' == Run(l, Alone(t, w, 1)) && t in l'.spot && l'.spot[t] == At(Outside) && l'.n == Less(s0.n, w)
    ensures l'.holder == {} && Reached(l')
    ensures LeftBy(s0, Abs(l'), t, Outside, Less(s0.n, w), WritersWoken(s0, w), ReadersWoken(s0, w))
  {
    var s1 := FreeStep(s, t, w);
    var same;
    l', same := LowStep(l, s, t, w);
    LeftThen(s0, s, s1, t, s.pc[t], Less(s0.n, w), Outside, WritersWoken(s0, w), ReadersWoken(s0, w));
    assert t in l'.spot && s1.pc[t] == Seen(l', t) && Abs(l').n == l'.n;
    SeenAt(l', t);
    RunFirst(l, t, w, 1);
    assert Alone(t, w, 0) == [];
  }

  /** A checkout of the program, run alone: the thread is outside, its counter is one
      less, and it has woken whom it should. */
  lemma ProgramCheckout(l: Low, t: Tid, w: bool) returns (n: nat)
    requires Reached(l) && t in l.spot && l.spot[t] == At(if w then Writing else Reading) && l.holder == {}
    ensures var l' := Run(l, Alone(t, w, n));
      && t in l'.spot && l'.spot[t] == At(Outside) && l'.n == Less(l.n, w) && l'.holder == {}
      && LeftBy(Abs(l), Abs(l'), t, Outside, Less(l.n, w), WritersWoken(Abs(l), w), ReadersWoken(Abs(l), w))
  {
    assert Abs(l).pc[t] == Seen(l, t) && Abs(l).n == l.n;
    var l';
    n, l' := LowCheckout(l, Abs(l), t, w);
  }

  lemma LowCheckout(l: Low, s: State, t: Tid, w: bool) returns (n: nat, l': Low)
    requires Reached(l) && s == Abs(l) && t in l.spot && s.pc[t] == (if w then Writing else Reading) && l.holder == {}
    ensures l' == Run(l, Alone(t, w, n))
    ensures t in l'.spot && l'.spot[t] == At(Outside) && l'.n == Less(s.n, w) && l'.holder == {}
    ensures LeftBy(s, Abs(l'), t, Outside, Less(s.n, w), WritersWoken(s, w), ReadersWoken(s, w))
  {
    var c, m := if w then WrExit else RdExit, 0;
    var l2 := LowToExit(l, s, t, w);
    AtPoint(l2, s, t, c, s.n, true);
    m, l' := LowOut(l2, Abs(l2), t, w);
    CameLeft(s, Abs(l2), Abs(l'), t, w, c);
    RunSplit(l, t, w, 2, m);
    n := 2 + m;
  }

  lemma LowOut(l: Low, s: State, t: Tid, w: bool) returns (n: nat, l': Low)
    requires Reached(l) && s == Abs(l) && t in l.spot && s.pc[t] == (if w then WrExit else RdExit) && l.holder == {t}
    ensures l' == Run(l, Alone(t, w, n))
    ensures t in l'.spot && l'.spot[t] == At(Outside) && l'.n == Less(s.n, w) && l'.holder == {}
    ensures LeftBy(s, Abs(l'), t, Outside, Less(s.n, w), WritersWoken(s, w), ReadersWoken(s, w))
  {
    var m, l1 := LowLeave(l, s, t, w);
    l' := LowFree(l1, Abs(l1), s, t, w);
    n := m + 1;
    RunSplit(l, t, w, m, 1);
  }
}
