/** The reader/writer monitor of an in-memory inode: `reader_checkin`,
    `reader_checkout`, `writer_checkin` and `writer_checkout`, run by any number
    of threads under every interleaving.

    A step is what one thread does between two synchronisation points: taking
    the monitor lock, working under it, or giving it up. Condition variables
    are Mesa style: a signalled thread leaves the queue at once but competes
    for the lock with everybody else before it re-tests its condition. */
module RwMonitor {
  import opened Common
  import opened Counting

  type Tid = nat

  datatype Pc =
    | Outside
    | RdEnter   // in reader_checkin, wants the lock
    | RdTest    // holds the lock, about to test for writers
    | RdBlock   // queued on ok_to_read, still holds the lock
    | RdWait    // queued on ok_to_read, lock given up
    | RdWoken   // signalled, wants the lock back
    | RdResume  // holds the lock again, still counted as waiting
    | RdDone    // counted as active, still holds the lock
    | Reading
    | RdLeave   // in reader_checkout, wants the lock
    | RdExit    // holds the lock, still counted as active
    | RdFree    // no longer counted, still holds the lock
    | WrEnter
    | WrTest
    | WrBlock
    | WrWait
    | WrWoken
    | WrResume
    | WrDone
    | Writing
    | WrLeave
    | WrExit
    | WrFree

  /** The counters of `struct inode`. They are integers, so that taking one from
      zero would show as a negative value instead of wrapping around. */
  datatype Counts = Counts(
    activeReaders: int, activeWriters: int, waitingReaders: int, waitingWriters: int)

  datatype State = State(
    pc: map<Tid, Pc>,
    holder: set<Tid>,
    n: Counts,
    okToRead: seq<Tid>,
    okToWrite: seq<Tid>)

  // --- the steps ---------------------------------------------------------

  /** Where the thread at `c` goes next, and what it does to the counters. */
  function Local(n: Counts, c: Pc, asWriter: bool): (r: (Pc, Counts)) {
    match c
    case Outside => (if asWriter then WrEnter else RdEnter, n)

    case RdEnter => (RdTest, n)
    case RdTest =>
      if n.activeWriters + n.waitingWriters > 0
      then (RdBlock, n.(waitingReaders := n.waitingReaders + 1))
      else (RdDone, n.(activeReaders := n.activeReaders + 1))
    case RdBlock => (RdWait, n)
    case RdWait => (RdWait, n)
    case RdWoken => (RdResume, n)
    case RdResume => (RdTest, n.(waitingReaders := n.waitingReaders - 1))
    case RdDone => (Reading, n)
    case Reading => (RdLeave, n)
    case RdLeave => (RdExit, n)
    case RdExit => (RdFree, n.(activeReaders := n.activeReaders - 1))
    case RdFree => (Outside, n)

    case WrEnter => (WrTest, n)
    case WrTest =>
      if n.activeWriters + n.activeReaders > 0
      then (WrBlock, n.(waitingWriters := n.waitingWriters + 1))
      else (WrDone, n.(activeWriters := n.activeWriters + 1))
    case WrBlock => (WrWait, n)
    case WrWait => (WrWait, n)
    case WrWoken => (WrResume, n)
    case WrResume => (WrTest, n.(waitingWriters := n.waitingWriters - 1))
    case WrDone => (Writing, n)
    case Writing => (WrLeave, n)
    case WrLeave => (WrExit, n)
    case WrExit => (WrFree, n.(activeWriters := n.activeWriters - 1))
    case WrFree => (Outside, n)
  }

  /** Points whose next step is `lock_acquire`. */
  predicate WantsLock(c: Pc) {
    c.RdEnter? || c.RdWoken? || c.RdLeave? || c.WrEnter? || c.WrWoken? || c.WrLeave?
  }

  /** Points whose next step is `lock_release`. */
  predicate Releases(c: Pc) {
    c.RdBlock? || c.RdDone? || c.RdFree? || c.WrBlock? || c.WrDone? || c.WrFree?
  }

  /** Only a thread that needs a taken lock, or that sleeps unsignalled in
      `cond_wait`, cannot move. */
  predicate Enabled(s: State, t: Tid) {
    && t in s.pc
    && s.pc[t] != RdWait && s.pc[t] != WrWait
    && (WantsLock(s.pc[t]) ==> s.holder == {})
  }

  /** The step of `t` itself, before it wakes anybody. */
  function Move(s: State, t: Tid, asWriter: bool): State
    requires Enabled(s, t)
  {
    var c := s.pc[t];
    var (c', n') := Local(s.n, c, asWriter);
    State(s.pc[t := c'],
          if WantsLock(c) then s.holder + {t} else if Releases(c) then s.holder - {t} else s.holder,
          n',
          if c' == RdBlock then s.okToRead + [t] else s.okToRead,
          if c' == WrBlock then s.okToWrite + [t] else s.okToWrite)
  }

  /** `cond_signal (&ok_to_write)`: the front waiter, if any, is released. */
  function SignalWriter(s: State): State {
    if s.okToWrite == [] then s
    else s.(pc := s.pc[s.okToWrite[0] := WrWoken], okToWrite := s.okToWrite[1..])
  }

  /** `cond_broadcast (&ok_to_read)`: every waiter is released. */
  function BroadcastReaders(s: State): State {
    s.(pc := map t | t in s.pc :: if t in s.okToRead then RdWoken else s.pc[t],
       okToRead := [])
  }

  function Next(s: State, t: Tid, asWriter: bool): State
    requires Enabled(s, t)
  {
    var s1 := Move(s, t, asWriter);
    match s.pc[t]
    case RdExit =>
      if s1.n.activeReaders == 0 && s1.n.waitingWriters > 0 then SignalWriter(s1) else s1
    case WrExit =>
      if s1.n.waitingWriters > 0 then SignalWriter(s1)
      else if s1.n.waitingReaders > 0 then BroadcastReaders(s1)
      else s1
    case _ => s1
  }

  function Init(threads: set<Tid>): State {
    State(map t | t in threads :: Outside, {}, Counts(0, 0, 0, 0), [], [])
  }

  /** Which thread moves next, and what a thread outside the monitor asks for. */
  datatype Choice = Choice(t: Tid, asWriter: bool)

  /** A choice that names a thread that cannot move is passed over, so every
      schedule is allowed. */
  function Take(s: State, c: Choice): State {
    if Enabled(s, c.t) then Next(s, c.t, c.asWriter) else s
  }

  function Exec(s: State, schedule: seq<Choice>): State
    decreases |schedule|
  {
    if schedule == [] then s else Exec(Take(s, schedule[0]), schedule[1..])
  }

  // --- what every step keeps ---------------------------------------------

  predicate HoldsLock(c: Pc) {
    || c.RdTest? || c.RdBlock? || c.RdResume? || c.RdDone? || c.RdExit? || c.RdFree?
    || c.WrTest? || c.WrBlock? || c.WrResume? || c.WrDone? || c.WrExit? || c.WrFree?
  }

  predicate ActiveReader(c: Pc) { c.RdDone? || c.Reading? || c.RdLeave? || c.RdExit? }
  predicate ActiveWriter(c: Pc) { c.WrDone? || c.Writing? || c.WrLeave? || c.WrExit? }
  predicate WaitingReader(c: Pc) { c.RdBlock? || c.RdWait? || c.RdWoken? || c.RdResume? }
  predicate WaitingWriter(c: Pc) { c.WrBlock? || c.WrWait? || c.WrWoken? || c.WrResume? }
  predicate QueuedReader(c: Pc) { c.RdBlock? || c.RdWait? }
  predicate QueuedWriter(c: Pc) { c.WrBlock? || c.WrWait? }

  /** A writer that has left the queue, or is new, and has not yet claimed the
      file or queued. */
  predicate PendingWriter(c: Pc) { c.WrWoken? || c.WrResume? || c.WrTest? }

  /** A writer that holds the lock and is about to claim the file or to queue. */
  predicate TestingWriter(c: Pc) { c.WrTest? }

  ghost predicate QueueIs(q: seq<Tid>, pc: map<Tid, Pc>, p: Pc -> bool) {
    && Once(q)
    && (forall t | t in q :: t in pc && p(pc[t]))
    && (forall t | t in pc && p(pc[t]) :: t in q)
  }

  /** The lock has at most one holder, and it is held exactly at the program
      points that run under it. */
  ghost predicate LockInv(s: State) {
    && |s.holder| <= 1
    && s.holder == Where(s.pc, HoldsLock)
  }

  ghost function Tally(pc: map<Tid, Pc>): Counts {
    Counts(Count(pc, ActiveReader), Count(pc, ActiveWriter),
           Count(pc, WaitingReader), Count(pc, WaitingWriter))
  }

  ghost predicate QueueInv(s: State) {
    && QueueIs(s.okToRead, s.pc, QueuedReader)
    && QueueIs(s.okToWrite, s.pc, QueuedWriter)
  }

  ghost predicate ExclusionInv(n: Counts) {
    && n.activeWriters <= 1
    && (n.activeWriters > 0 ==> n.activeReaders == 0)
  }

  ghost predicate Somewhere(pc: map<Tid, Pc>, p: Pc -> bool) {
    exists t :: t in pc && p(pc[t])
  }

  /** Nobody is stranded: a queued writer has somebody who will signal it or
      overtake it, and a queued reader has a writer to wait for. */
  ghost predicate StrandInv(s: State) {
    && (s.okToWrite != [] ==>
          s.n.activeReaders + s.n.activeWriters > 0 || Somewhere(s.pc, PendingWriter))
    && (s.okToRead != [] ==>
          s.n.activeWriters + s.n.waitingWriters > 0 || Somewhere(s.pc, TestingWriter))
  }

  ghost predicate Inv(s: State) {
    LockInv(s) && s.n == Tally(s.pc) && QueueInv(s) && ExclusionInv(s.n) && StrandInv(s)
  }

  // --- counting ----------------------------------------------------------

  /** Being woken does not change which of these predicates a thread meets. */
  predicate WakeBlind(p: Pc -> bool) {
    && p(RdBlock) == p(RdWait) == p(RdWoken)
    && p(WrBlock) == p(WrWait) == p(WrWoken)
  }

  /** Threads other than `t` either stay or are woken from a queue. */
  ghost predicate OnlyWakes(pc: map<Tid, Pc>, pc': map<Tid, Pc>, t: Tid) {
    && pc'.Keys == pc.Keys
    && forall u | u in pc && u != t ::
         || pc'[u] == pc[u]
         || (QueuedWriter(pc[u]) && pc'[u] == WrWoken)
         || (QueuedReader(pc[u]) && pc'[u] == RdWoken)
  }

  lemma SignalShape(s: State, s1: State, t: Tid)
    requires QueueInv(s) && t in s.pc && !QueuedWriter(s.pc[t])
    requires t in s1.pc && s1.pc == s.pc[t := s1.pc[t]] && s1.okToWrite == s.okToWrite
    ensures OnlyWakes(s.pc, SignalWriter(s1).pc, t) && SignalWriter(s1).pc[t] == s1.pc[t]
  {
    if s.okToWrite != [] {
      assert s.okToWrite[0] in s.okToWrite;
    }
  }

  lemma BroadcastShape(s: State, s1: State, t: Tid)
    requires QueueInv(s) && t in s.pc && !QueuedReader(s.pc[t])
    requires t in s1.pc && s1.pc == s.pc[t := s1.pc[t]] && s1.okToRead == s.okToRead
    ensures OnlyWakes(s.pc, BroadcastReaders(s1).pc, t) && BroadcastReaders(s1).pc[t] == s1.pc[t]
  {
  }

  /** A step is a move, and a thread that leaves may then wake others. */
  lemma NextIs(s: State, t: Tid, w: bool)
    requires Enabled(s, t)
    ensures var s1, s2 := Move(s, t, w), Next(s, t, w);
      || s2 == s1
      || ((s2 == SignalWriter(s1) || s2 == BroadcastReaders(s1)) && s1.okToWrite == s.okToWrite)
  {
  }

  lemma ExitShape(s: State, s1: State, s2: State, t: Tid)
    requires QueueInv(s) && t in s.pc && !QueuedWriter(s.pc[t]) && !QueuedReader(s.pc[t])
    requires t in s1.pc && s1.pc == s.pc[t := s1.pc[t]] && s1.okToWrite == s.okToWrite && s1.okToRead == s.okToRead
    requires s2 == s1 || s2 == SignalWriter(s1) || s2 == BroadcastReaders(s1)
    ensures OnlyWakes(s.pc, s2.pc, t) && s2.pc[t] == s1.pc[t] && s2.holder == s1.holder && s2.n == s1.n
  {
    SignalShape(s, s1, t);
    BroadcastShape(s, s1, t);
  }

  lemma StepShape(s: State, t: Tid, w: bool)
    requires Enabled(s, t) && QueueInv(s)
    ensures OnlyWakes(s.pc, Next(s, t, w).pc, t)
    ensures Next(s, t, w).pc[t] == Local(s.n, s.pc[t], w).0
    ensures !s.pc[t].RdExit? && !s.pc[t].WrExit? ==> Next(s, t, w) == Move(s, t, w)
    ensures Next(s, t, w).holder == Move(s, t, w).holder && Next(s, t, w).n == Move(s, t, w).n
  {
    if s.pc[t].RdExit? || s.pc[t].WrExit? {
      ExitShape(s, Move(s, t, w), Next(s, t, w), t);
    }
  }

  lemma CountMove(pc: map<Tid, Pc>, pc': map<Tid, Pc>, t: Tid, p: Pc -> bool)
    requires t in pc && OnlyWakes(pc, pc', t) && WakeBlind(p)
    ensures Count(pc', p)
         == Count(pc, p) - (if p(pc[t]) then 1 else 0) + (if p(pc'[t]) then 1 else 0)
  {
    CountUpdate(pc, t, pc'[t], p);
    CountSame(pc[t := pc'[t]], pc', p);
  }

  function One(b: bool): int { if b then 1 else 0 }

  /** The counters after one thread has moved from `c` to `c'`. */
  function Shift(n: Counts, c: Pc, c': Pc): Counts {
    Counts(n.activeReaders - One(ActiveReader(c)) + One(ActiveReader(c')),
           n.activeWriters - One(ActiveWriter(c)) + One(ActiveWriter(c')),
           n.waitingReaders - One(WaitingReader(c)) + One(WaitingReader(c')),
           n.waitingWriters - One(WaitingWriter(c)) + One(WaitingWriter(c')))
  }

  lemma TallyMove(pc: map<Tid, Pc>, pc': map<Tid, Pc>, t: Tid)
    requires t in pc && OnlyWakes(pc, pc', t)
    ensures Tally(pc') == Shift(Tally(pc), pc[t], pc'[t])
  {
    CountMove(pc, pc', t, ActiveReader);
    CountMove(pc, pc', t, ActiveWriter);
    CountMove(pc, pc', t, WaitingReader);
    CountMove(pc, pc', t, WaitingWriter);
  }

  /** The program's own increments and decrements agree with the threads. */
  lemma LocalCounts(n: Counts, c: Pc, w: bool)
    ensures Local(n, c, w).1 == Shift(n, c, Local(n, c, w).0)
  {
  }

  lemma CountStep(s: State, t: Tid, w: bool)
    requires Enabled(s, t) && QueueInv(s) && s.n == Tally(s.pc)
    ensures Next(s, t, w).n == Tally(Next(s, t, w).pc)
  {
    StepShape(s, t, w);
    LocalCounts(s.n, s.pc[t], w);
    TallyMove(s.pc, Next(s, t, w).pc, t);
  }

  // --- the lock ----------------------------------------------------------

  lemma Singleton(a: set<Tid>, t: Tid)
    requires |a| <= 1 && t in a
    ensures a == {t}
  {
    assert |a - {t}| == |a| - 1;
    assert a == (a - {t}) + {t};
  }

  /** A thread that is woken does not hold the lock, for the waker does. */
  lemma WakesKeepLock(s: State, t: Tid, w: bool)
    requires LockInv(s) && QueueInv(s) && Enabled(s, t)
    ensures forall u | u in s.pc && u != t ::
              u in Next(s, t, w).pc && HoldsLock(Next(s, t, w).pc[u]) == HoldsLock(s.pc[u])
  {
    StepShape(s, t, w);
    var pc' := Next(s, t, w).pc;
    forall u | u in s.pc && u != t && pc'[u] != s.pc[u]
      ensures !HoldsLock(s.pc[u])
    {
      assert t in s.holder;
      Singleton(s.holder, t);
      assert u !in Where(s.pc, HoldsLock);
    }
  }

  lemma HoldersMove(pc: map<Tid, Pc>, pc': map<Tid, Pc>, t: Tid)
    requires t in pc && pc'.Keys == pc.Keys
    requires forall u | u in pc && u != t :: HoldsLock(pc'[u]) == HoldsLock(pc[u])
    ensures Where(pc', HoldsLock)
         == if HoldsLock(pc'[t]) then Where(pc, HoldsLock) + {t} else Where(pc, HoldsLock) - {t}
  {
  }

  lemma LocalLock(n: Counts, c: Pc, w: bool)
    requires !c.RdWait? && !c.WrWait?
    ensures var c' := Local(n, c, w).0;
      && (HoldsLock(c') <==> WantsLock(c) || (HoldsLock(c) && !Releases(c)))
      && !(WantsLock(c) && HoldsLock(c))
      && (Releases(c) ==> HoldsLock(c))
  {
  }

  /** The holders move with the thread that steps. */
  lemma LockMoves(s: State, s': State, t: Tid)
    requires LockInv(s) && t in s.pc && t in s'.pc
    requires var c, c' := s.pc[t], s'.pc[t];
      && (HoldsLock(c') <==> WantsLock(c) || (HoldsLock(c) && !Releases(c))) && (Releases(c) ==> HoldsLock(c))
      && (WantsLock(c) ==> s.holder == {})
      && s'.holder == (if WantsLock(c) then s.holder + {t} else if Releases(c) then s.holder - {t} else s.holder)
      && Where(s'.pc, HoldsLock) == if HoldsLock(c') then s.holder + {t} else s.holder - {t}
    ensures LockInv(s')
  {
    if t in s.holder {
      Singleton(s.holder, t);
    }
  }

  lemma LockStep(s: State, t: Tid, w: bool)
    requires LockInv(s) && QueueInv(s) && Enabled(s, t)
    ensures LockInv(Next(s, t, w))
  {
    StepShape(s, t, w);
    LocalLock(s.n, s.pc[t], w);
    WakesKeepLock(s, t, w);
    HoldersMove(s.pc, Next(s, t, w).pc, t);
    LockMoves(s, Next(s, t, w), t);
  }

  // --- the queues --------------------------------------------------------

  /** A thread becomes queued only by pushing itself, and leaves a queue only
      by being woken. */
  lemma LocalQueue(n: Counts, c: Pc, w: bool)
    ensures var c' := Local(n, c, w).0;
      && QueuedReader(c') == (c'.RdBlock? || QueuedReader(c))
      && QueuedWriter(c') == (c'.WrBlock? || QueuedWriter(c))
      && (c'.RdBlock? ==> !QueuedReader(c))
      && (c'.WrBlock? ==> !QueuedWriter(c))
  {
  }

  lemma QueueMove(q: seq<Tid>, pc: map<Tid, Pc>, t: Tid, c: Pc, p: Pc -> bool)
    requires QueueIs(q, pc, p) && t in pc
    ensures p(c) == p(pc[t]) ==> QueueIs(q, pc[t := c], p)
    ensures p(c) && !p(pc[t]) ==> QueueIs(q + [t], pc[t := c], p)
  {
  }

  lemma QueuePop(q: seq<Tid>, pc: map<Tid, Pc>, c: Pc, p: Pc -> bool)
    requires QueueIs(q, pc, p) && q != [] && !p(c)
    ensures QueueIs(q[1..], pc[q[0] := c], p)
  {
    var q' := q[1..];
    assert forall t | t in q' :: t != q[0] && t in q;
    forall t | t in pc && t != q[0] && p(pc[t]) ensures t in q' {
      assert t in q;
    }
  }

  lemma MoveQueues(s: State, t: Tid, w: bool)
    requires Enabled(s, t) && QueueInv(s)
    ensures QueueInv(Move(s, t, w))
  {
    LocalQueue(s.n, s.pc[t], w);
    var c' := Local(s.n, s.pc[t], w).0;
    QueueMove(s.okToRead, s.pc, t, c', QueuedReader);
    QueueMove(s.okToWrite, s.pc, t, c', QueuedWriter);
  }

  lemma SignalQueues(s: State)
    requires QueueInv(s)
    ensures QueueInv(SignalWriter(s))
  {
    if s.okToWrite != [] {
      var u := s.okToWrite[0];
      assert u in s.okToWrite;
      QueuePop(s.okToWrite, s.pc, WrWoken, QueuedWriter);
      QueueMove(s.okToRead, s.pc, u, WrWoken, QueuedReader);
    }
  }

  lemma BroadcastQueues(s: State)
    requires QueueInv(s)
    ensures QueueInv(BroadcastReaders(s))
  {
  }

  lemma QueueStep(s: State, t: Tid, w: bool)
    requires Enabled(s, t) && QueueInv(s)
    ensures QueueInv(Next(s, t, w))
  {
    MoveQueues(s, t, w);
    NextIs(s, t, w);
    WakeQueues(Move(s, t, w), Next(s, t, w));
  }

  lemma WakeQueues(s1: State, s2: State)
    requires QueueInv(s1) && (s2 == s1 || s2 == SignalWriter(s1) || s2 == BroadcastReaders(s1))
    ensures QueueInv(s2)
  {
    SignalQueues(s1);
    BroadcastQueues(s1);
  }

  // --- exclusion and stranding -------------------------------------------

  ghost predicate NonNegative(n: Counts) {
    n.activeReaders >= 0 && n.activeWriters >= 0 && n.waitingReaders >= 0 && n.waitingWriters >= 0
  }

  lemma LocalExclusion(n: Counts, c: Pc, w: bool)
    requires ExclusionInv(n) && NonNegative(n) && NonNegative(Local(n, c, w).1)
    ensures ExclusionInv(Local(n, c, w).1)
  {
  }

  lemma LocalStrand(n: Counts, c: Pc, w: bool)
    requires NonNegative(n) && !c.RdExit? && !c.WrExit?
    ensures var (c', n') := Local(n, c, w);
      && (n.activeReaders + n.activeWriters > 0 || PendingWriter(c) || c'.WrBlock? ==>
            n'.activeReaders + n'.activeWriters > 0 || PendingWriter(c'))
      && (n.activeWriters + n.waitingWriters > 0 || TestingWriter(c) || c'.RdBlock? ==>
            n'.activeWriters + n'.waitingWriters > 0 || TestingWriter(c'))
  {
  }

  lemma KeepsWitness(pc: map<Tid, Pc>, t: Tid, c': Pc, p: Pc -> bool)
    requires t in pc && Somewhere(pc, p)
    ensures p(pc[t]) || Somewhere(pc[t := c'], p)
  {
    var u :| u in pc && p(pc[u]);
    if u != t {
      assert u in pc[t := c'] && p(pc[t := c'][u]);
    }
  }

  lemma StrandMove(s: State, t: Tid, w: bool)
    requires Enabled(s, t) && StrandInv(s) && NonNegative(s.n)
    requires !s.pc[t].RdExit? && !s.pc[t].WrExit?
    ensures StrandInv(Move(s, t, w))
  {
    var s' := Move(s, t, w);
    var (c', n') := Local(s.n, s.pc[t], w);
    LocalStrand(s.n, s.pc[t], w);
    assert s'.pc[t] == c';
    if Somewhere(s.pc, PendingWriter) {
      KeepsWitness(s.pc, t, c', PendingWriter);
    }
    if Somewhere(s.pc, TestingWriter) {
      KeepsWitness(s.pc, t, c', TestingWriter);
    }
  }

  /** A nonempty queue shows in the counter of waiting threads. */
  lemma QueuedAreCounted(s: State)
    requires QueueInv(s) && s.n == Tally(s.pc)
    ensures s.okToWrite != [] ==> s.n.waitingWriters > 0
    ensures s.okToRead != [] ==> s.n.waitingReaders > 0
  {
    if s.okToWrite != [] {
      assert s.okToWrite[0] in s.okToWrite;
      CountPositive(s.pc, WaitingWriter);
    }
    if s.okToRead != [] {
      assert s.okToRead[0] in s.okToRead;
      CountPositive(s.pc, WaitingReader);
    }
  }

  lemma SignalStrand(s: State)
    requires s.n.activeWriters + s.n.waitingWriters > 0
    ensures StrandInv(SignalWriter(s))
  {
    if s.okToWrite != [] {
      var u := s.okToWrite[0];
      assert u in SignalWriter(s).pc && PendingWriter(SignalWriter(s).pc[u]);
    }
  }

  lemma StrandReaderExit(s: State, t: Tid, w: bool)
    requires Inv(s) && Enabled(s, t) && s.pc[t].RdExit?
    requires s.n.activeReaders > 0
    ensures StrandInv(Next(s, t, w))
  {
    var s1 := Move(s, t, w);
    QueuedAreCounted(s);
    if s1.n.activeReaders == 0 && s1.n.waitingWriters > 0 {
      SignalStrand(s1);
    } else if Somewhere(s.pc, TestingWriter) {
      KeepsWitness(s.pc, t, RdFree, TestingWriter);
    }
  }

  lemma StrandWriterExit(s: State, t: Tid, w: bool)
    requires Inv(s) && Enabled(s, t) && s.pc[t].WrExit?
    requires s.n.activeWriters > 0
    ensures StrandInv(Next(s, t, w))
  {
    var s1 := Move(s, t, w);
    QueuedAreCounted(s);
    if s1.n.waitingWriters > 0 {
      SignalStrand(s1);
    }
  }

  lemma StrandStep(s: State, t: Tid, w: bool)
    requires Inv(s) && Enabled(s, t)
    ensures StrandInv(Next(s, t, w))
  {
    if s.pc[t].RdExit? {
      CountPositive(s.pc, ActiveReader);
      StrandReaderExit(s, t, w);
    } else if s.pc[t].WrExit? {
      CountPositive(s.pc, ActiveWriter);
      StrandWriterExit(s, t, w);
    } else {
      StepShape(s, t, w);
      StrandMove(s, t, w);
    }
  }

  lemma InvStep(s: State, t: Tid, w: bool)
    requires Inv(s) && Enabled(s, t)
    ensures Inv(Next(s, t, w))
  {
    LockStep(s, t, w);
    CountStep(s, t, w);
    QueueStep(s, t, w);
    StepShape(s, t, w);
    LocalExclusion(s.n, s.pc[t], w);
    StrandStep(s, t, w);
  }

  // --- whole runs --------------------------------------------------------

  lemma {:induction false} InvRun(s: State, schedule: seq<Choice>)
    requires Inv(s)
    ensures Inv(Exec(s, schedule))
    decreases |schedule|
  {
    if schedule != [] {
      var c := schedule[0];
      if Enabled(s, c.t) {
        InvStep(s, c.t, c.asWriter);
      }
      InvRun(if Enabled(s, c.t) then Next(s, c.t, c.asWriter) else s, schedule[1..]);
    }
  }

  lemma InvInit(threads: set<Tid>)
    ensures Inv(Init(threads))
  {
    var s := Init(threads);
    assert forall p: Pc -> bool | !p(Outside) :: Where(s.pc, p) == {};
  }

  /** Mutual exclusion, over every interleaving of any number of threads. */
  lemma Exclusion(threads: set<Tid>, schedule: seq<Choice>, t: Tid, u: Tid)
    requires t in threads && u in threads && t != u
    ensures var s := Exec(Init(threads), schedule);
      && t in s.pc && u in s.pc
      && (s.pc[t] == Writing ==> s.pc[u] != Writing && s.pc[u] != Reading)
  {
    InvInit(threads);
    InvRun(Init(threads), schedule);
    KeysRun(Init(threads), schedule);
    var s := Exec(Init(threads), schedule);
    if s.pc[t] == Writing {
      CountTwo(s.pc, ActiveWriter, t, u);
      CountPositive(s.pc, ActiveReader);
    }
  }

  lemma CountTwo(pc: map<Tid, Pc>, p: Pc -> bool, t: Tid, u: Tid)
    requires t in pc && u in pc && t != u && p(pc[t])
    ensures Count(pc, p) >= 1
    ensures p(pc[u]) ==> Count(pc, p) >= 2
  {
    assert t in Where(pc, p);
    if p(pc[u]) {
      assert {t, u} <= Where(pc, p);
      Larger({t, u}, Where(pc, p));
    }
  }

  lemma Larger(a: set<Tid>, b: set<Tid>)
    requires a <= b
    ensures |a| <= |b|
  {
    assert b == a + (b - a);
  }

  lemma {:induction false} KeysRun(s: State, schedule: seq<Choice>)
    requires Inv(s)
    ensures Exec(s, schedule).pc.Keys == s.pc.Keys
    decreases |schedule|
  {
    if schedule != [] {
      var c := schedule[0];
      if Enabled(s, c.t) {
        StepShape(s, c.t, c.asWriter);
        InvStep(s, c.t, c.asWriter);
      }
      KeysRun(if Enabled(s, c.t) then Next(s, c.t, c.asWriter) else s, schedule[1..]);
    }
  }

  ghost predicate Reachable(s: State) {
    exists threads, schedule :: s == Exec(Init(threads), schedule)
  }

  lemma ReachableInv(s: State)
    requires Reachable(s)
    ensures Inv(s)
  {
    var threads, schedule :| s == Exec(Init(threads), schedule);
    InvInit(threads);
    InvRun(Init(threads), schedule);
  }

  /** No lost wake-up: whenever the lock is free, an unsignalled writer has an
      active thread to wait for or a signalled writer ahead of it, and an
      unsignalled reader has an active or waiting writer to wait for. */
  lemma NobodyStranded(s: State)
    requires Reachable(s) && s.holder == {}
    ensures s.okToWrite != [] ==>
      || (exists t :: t in s.pc && (ActiveReader(s.pc[t]) || ActiveWriter(s.pc[t])))
      || (exists t :: t in s.pc && s.pc[t] == WrWoken)
    ensures s.okToRead != [] ==>
      exists t :: t in s.pc && (ActiveWriter(s.pc[t]) || WaitingWriter(s.pc[t]))
  {
    ReachableInv(s);
    assert forall t | t in s.pc :: !HoldsLock(s.pc[t]) by {
      assert forall t | t in s.pc && HoldsLock(s.pc[t]) :: t in Where(s.pc, HoldsLock);
    }
    CountPositive(s.pc, ActiveReader);
    CountPositive(s.pc, ActiveWriter);
    CountPositive(s.pc, WaitingWriter);
    if s.okToWrite != [] && Somewhere(s.pc, PendingWriter) {
      var t :| t in s.pc && PendingWriter(s.pc[t]);
      assert s.pc[t] == WrWoken;
    }
  }

  lemma SomebodyAwake(s: State, t: Tid)
    requires Reachable(s) && s.holder == {} && t in s.pc && s.pc[t] != Outside
    ensures exists u :: u in s.pc && s.pc[u] != Outside && s.pc[u] != RdWait && s.pc[u] != WrWait
  {
    NobodyStranded(s);
    WaitersAreQueued(s, t);
    if s.pc[t] == RdWait {
      var u :| u in s.pc && (ActiveWriter(s.pc[u]) || WaitingWriter(s.pc[u]));
      WaitersAreQueued(s, u);
    }
  }

  lemma WaitersAreQueued(s: State, t: Tid)
    requires Reachable(s) && t in s.pc
    ensures s.pc[t] == WrWait ==> s.okToWrite != []
    ensures s.pc[t] == RdWait ==> s.okToRead != []
  {
    ReachableInv(s);
  }

  lemma HolderAwake(s: State, h: Tid)
    requires Reachable(s) && h in s.holder
    ensures h in s.pc && s.pc[h] != Outside && Enabled(s, h)
  {
    ReachableInv(s);
    assert h in Where(s.pc, HoldsLock);
  }

  /** No deadlock: while any thread is inside the protocol, some such thread
      can move. */
  lemma NoDeadlock(s: State, t: Tid)
    requires Reachable(s) && t in s.pc && s.pc[t] != Outside
    ensures exists u :: u in s.pc && s.pc[u] != Outside && Enabled(s, u)
  {
    if s.holder != {} {
      var h :| h in s.holder;
      HolderAwake(s, h);
    } else {
      SomebodyAwake(s, t);
      var u :| u in s.pc && s.pc[u] != Outside && s.pc[u] != RdWait && s.pc[u] != WrWait;
      assert Enabled(s, u);
    }
  }

  /** A step leaves the queue of writers alone, adds the stepping thread at the
      back, or takes the front and wakes it. */
  lemma WriterQueueStep(s: State, c: Choice)
    ensures var s' := Take(s, c);
      || s'.okToWrite == s.okToWrite
      || (s'.okToWrite == s.okToWrite + [c.t] && c.t in s.pc && s.pc[c.t] == WrTest)
      || (s.okToWrite != [] && s'.okToWrite == s.okToWrite[1..]
          && s.okToWrite[0] in s'.pc && s'.pc[s.okToWrite[0]] == WrWoken)
  {
    if Enabled(s, c.t) {
      NextIs(s, c.t, c.asWriter);
      MoveQueue(s, c.t, c.asWriter);
      WakeQueue(Move(s, c.t, c.asWriter), Take(s, c));
    }
  }

  lemma MoveQueue(s: State, t: Tid, w: bool)
    requires Enabled(s, t)
    ensures var q' := Move(s, t, w).okToWrite; q' == s.okToWrite || (q' == s.okToWrite + [t] && s.pc[t] == WrTest)
  {
  }

  lemma WakeQueue(s1: State, s2: State)
    requires s2 == s1 || s2 == SignalWriter(s1) || s2 == BroadcastReaders(s1)
    ensures
      || s2.okToWrite == s1.okToWrite
      || (s1.okToWrite != [] && s2.okToWrite == s1.okToWrite[1..]
          && s1.okToWrite[0] in s2.pc && s2.pc[s1.okToWrite[0]] == WrWoken)
  {
  }

  /** How many writers a schedule takes off the queue. */
  function Signals(s: State, schedule: seq<Choice>): nat
    decreases |schedule|
  {
    if schedule == [] then 0
    else
      var s' := Take(s, schedule[0]);
      (if |s'.okToWrite| < |s.okToWrite| then 1 else 0) + Signals(s', schedule[1..])
  }

  /** What a step that takes `d` writers off the queue does to the one at `i`. */
  predicate MovesUp(q: seq<Tid>, q': seq<Tid>, pc': map<Tid, Pc>, d: nat, i: nat)
    requires i < |q|
  {
    if d == 0 then i < |q'| && q'[i] == q[i]
    else d == 1 && if i > 0 then i - 1 < |q'| && q'[i - 1] == q[i] else q[0] in pc' && pc'[q[0]] == WrWoken
  }

  /** A schedule leads from `s` where the rest of it leads from `s1`. */
  ghost predicate Follows(s: State, s1: State, d: nat, schedule: seq<Choice>)
    requires schedule != []
  {
    && Exec(s, schedule) == Exec(s1, schedule[1..])
    && Signals(s, schedule) == d + Signals(s1, schedule[1..])
    && forall n: nat | n < |schedule| ::
         && Exec(s, schedule[..n + 1]) == Exec(s1, schedule[1..][..n])
         && Signals(s, schedule[..n + 1]) == d + Signals(s1, schedule[1..][..n])
  }

  /** A schedule is its first step and the rest. */
  lemma First(s: State, schedule: seq<Choice>, i: nat) returns (s1: State, d: nat)
    requires schedule != [] && i < |s.okToWrite|
    ensures MovesUp(s.okToWrite, s1.okToWrite, s1.pc, d, i)
    ensures Follows(s, s1, d, schedule)
  {
    s1 := Take(s, schedule[0]);
    d := if |s1.okToWrite| < |s.okToWrite| then 1 else 0;
    WriterQueueStep(s, schedule[0]);
    forall n: nat | n < |schedule|
      ensures Exec(s, schedule[..n + 1]) == Exec(s1, schedule[1..][..n])
      ensures Signals(s, schedule[..n + 1]) == d + Signals(s1, schedule[1..][..n])
    {
      assert schedule[..n + 1][0] == schedule[0] && schedule[..n + 1][1..] == schedule[1..][..n];
    }
  }

  /** `x`, which is at position `i`, has moved up by the `done` writers taken off the
      queue. */
  predicate UpBy(s: State, x: Tid, i: nat, done: nat) {
    done <= i && i - done < |s.okToWrite| && s.okToWrite[i - done] == x
  }

  predicate Awoken(s: State, x: Tid) { x in s.pc && s.pc[x] == WrWoken }

  /** When `done` signals have led to `s`, and `part` of them to `at`. */
  predicate Served(x: Tid, i: nat, s: State, done: nat, at: State, part: nat) {
    if done <= i then UpBy(s, x, i, done) else part == i + 1 && Awoken(at, x)
  }

  ghost predicate InTurn(s: State, schedule: seq<Choice>, i: nat, n: nat)
    requires i < |s.okToWrite|
  {
    && n <= |schedule|
    && Served(s.okToWrite[i], i, Exec(s, schedule), Signals(s, schedule), Exec(s, schedule[..n]),
              Signals(s, schedule[..n]))
  }

  lemma ServedLater(x: Tid, i: nat, d: nat, s: State, done: nat, at: State, part: nat)
    requires d <= i && Served(x, i - d, s, done, at, part)
    ensures Served(x, i, s, d + done, at, d + part)
  {
  }

  lemma InTurnLater(s: State, s1: State, d: nat, schedule: seq<Choice>, i: nat, n: nat)
    requires schedule != [] && d <= i < |s.okToWrite| && MovesUp(s.okToWrite, s1.okToWrite, s1.pc, d, i)
    requires Follows(s, s1, d, schedule) && InTurn(s1, schedule[1..], i - d, n)
    ensures InTurn(s, schedule, i, n + 1)
  {
    var rest := schedule[1..];
    ServedLater(s.okToWrite[i], i, d, Exec(s1, rest), Signals(s1, rest), Exec(s1, rest[..n]), Signals(s1, rest[..n]));
  }

  lemma InTurnStart(s: State, i: nat)
    requires i < |s.okToWrite|
    ensures InTurn(s, [], i, 0)
  {
  }

  lemma InTurnNow(s: State, s1: State, d: nat, schedule: seq<Choice>, i: nat)
    requires schedule != [] && i < |s.okToWrite| && i < d && MovesUp(s.okToWrite, s1.okToWrite, s1.pc, d, i)
    requires Follows(s, s1, d, schedule)
    ensures InTurn(s, schedule, i, 1)
  {
    assert Exec(s, schedule[..0 + 1]) == Exec(s1, schedule[1..][..0]) == s1;
  }

  /** The first step wakes the writer, or leaves it at position `j` to the rest of the
      schedule. */
  lemma FirstTurn(s: State, schedule: seq<Choice>, i: nat) returns (s1: State, woken: bool, j: nat)
    requires schedule != [] && i < |s.okToWrite|
    ensures woken ==> InTurn(s, schedule, i, 1)
    ensures !woken ==> j < |s1.okToWrite|
    ensures !woken && (exists n: nat :: InTurn(s1, schedule[1..], j, n)) ==> exists n: nat :: InTurn(s, schedule, i, n)
  {
    var d;
    s1, d := First(s, schedule, i);
    woken, j := d > i, if d > i then 0 else i - d;
    if woken {
      InTurnNow(s, s1, d, schedule, i);
    } else if n: nat :| InTurn(s1, schedule[1..], j, n) {
      InTurnLater(s, s1, d, schedule, i, n);
    }
  }

  /** Writers are served in the order in which they queue, in every run: the writer
      at position `i` moves up with each one that is signalled, and signal `i + 1`
      wakes it. */
  lemma {:induction false} WriterQueueFifo(s: State, schedule: seq<Choice>, i: nat)
    requires i < |s.okToWrite|
    ensures exists n: nat :: InTurn(s, schedule, i, n)
    decreases |schedule|
  {
    if schedule == [] {
      InTurnStart(s, i);
    } else {
      var s1, woken, j := FirstTurn(s, schedule, i);
      if !woken {
        WriterQueueFifo(s1, schedule[1..], j);
      }
    }
  }

  lemma BarredReader(n: Counts, c: Pc, w: bool)
    requires n.waitingWriters > 0 && n.activeWriters >= 0 && !ActiveReader(c)
    ensures !ActiveReader(Local(n, c, w).0)
  {
  }

  lemma WakesNoReader(pc: map<Tid, Pc>, pc': map<Tid, Pc>, t: Tid, u: Tid)
    requires t in pc && OnlyWakes(pc, pc', t) && u in pc && !ActiveReader(pc[u])
    requires u == t ==> !ActiveReader(pc'[t])
    ensures u in pc' && !ActiveReader(pc'[u])
  {
  }

  /** Writers go first: while a writer waits, no thread becomes a reader. */
  lemma WaitingWriterBarsReaders(s: State, v: Tid, t: Tid, w: bool, u: Tid)
    requires Reachable(s) && Enabled(s, t)
    requires v in s.pc && WaitingWriter(s.pc[v])
    requires u in s.pc && !ActiveReader(s.pc[u])
    ensures u in Next(s, t, w).pc && !ActiveReader(Next(s, t, w).pc[u])
  {
    ReachableInv(s);
    CountPositive(s.pc, WaitingWriter);
    StepShape(s, t, w);
    if u == t {
      BarredReader(s.n, s.pc[t], w);
    }
    WakesNoReader(s.pc, Next(s, t, w).pc, t, u);
  }

  // --- what a thread does alone --------------------------------------------

  /** `n` steps of `t`. */
  function Alone(t: Tid, w: bool, n: nat): seq<Choice> {
    seq(n, _ => Choice(t, w))
  }

  lemma AloneFirst(s: State, t: Tid, w: bool, n: nat)
    requires n > 0
    ensures Exec(s, Alone(t, w, n)) == Exec(Take(s, Choice(t, w)), Alone(t, w, n - 1))
  {
    assert Alone(t, w, n)[0] == Choice(t, w) && Alone(t, w, n)[1..] == Alone(t, w, n - 1);
  }

  /** `t` has gone to `c`, the counters are `n`, and it holds the lock if `held`. */
  ghost predicate CameTo(s: State, s': State, t: Tid, c: Pc, n: Counts, held: bool) {
    && s'.pc == s.pc[t := c] && s'.n == n && s'.holder == (if held then {t} else {})
    && s'.okToRead == s.okToRead && s'.okToWrite == s.okToWrite
  }

  predicate Plain(c: Pc) { c != RdWait && c != WrWait && c != RdExit && c != WrExit }

  /** One step of a thread that wakes nobody and does not begin to wait. */
  lemma AloneStep(s: State, t: Tid, w: bool, c: Pc, n: Counts, held: bool) returns (s': State)
    requires t in s.pc && Plain(s.pc[t])
    requires s.holder == (if HoldsLock(s.pc[t]) then {t} else {})
    requires (c, n) == Local(s.n, s.pc[t], w) && held == HoldsLock(c) && c != RdBlock && c != WrBlock
    ensures s' == Take(s, Choice(t, w)) && CameTo(s, s', t, c, n, held)
  {
    s' := Take(s, Choice(t, w));
  }

  lemma {:induction false} AloneSplit(s: State, t: Tid, w: bool, n: nat, m: nat)
    ensures Exec(s, Alone(t, w, n + m)) == Exec(Exec(s, Alone(t, w, n)), Alone(t, w, m))
    decreases n
  {
    if n > 0 {
      AloneFirst(s, t, w, n + m);
      AloneFirst(s, t, w, n);
      AloneSplit(Take(s, Choice(t, w)), t, w, n - 1, m);
    }
  }

  /** Two such steps, by way of `c1`. */
  lemma TwoSteps(s: State, t: Tid, w: bool, c1: Pc, n1: Counts, c: Pc, n: Counts) returns (s': State)
    requires t in s.pc && Plain(s.pc[t]) && Plain(c1) && s.holder == (if HoldsLock(s.pc[t]) then {t} else {})
    requires Leads(s.n, s.pc[t], w, c1, n1) && Leads(n1, c1, w, c, n)
    ensures s' == Exec(s, Alone(t, w, 2)) && CameTo(s, s', t, c, n, HoldsLock(c))
  {
    var s1 := AloneStep(s, t, w, c1, n1, HoldsLock(c1));
    s' := AloneStep(s1, t, w, c, n, HoldsLock(c));
    CameThen(s, s1, s', t, c1, n1, HoldsLock(c1), c, n, HoldsLock(c));
    TwoExec(s, s1, s', t, w);
  }

  lemma CameThen(s: State, s1: State, s2: State, t: Tid, c1: Pc, n1: Counts, held1: bool, c: Pc, n: Counts, held: bool)
    requires CameTo(s, s1, t, c1, n1, held1) && CameTo(s1, s2, t, c, n, held)
    ensures CameTo(s, s2, t, c, n, held)
  {
  }

  /** And four. */
  lemma FourSteps(s: State, t: Tid, w: bool, c1: Pc, n1: Counts, c2: Pc, n2: Counts, c3: Pc, n3: Counts, c: Pc,
                  n: Counts)
    requires t in s.pc && s.holder == (if HoldsLock(s.pc[t]) then {t} else {})
    requires Plain(s.pc[t]) && Plain(c1) && Plain(c2) && Plain(c3)
    requires Leads(s.n, s.pc[t], w, c1, n1) && Leads(n1, c1, w, c2, n2) && Leads(n2, c2, w, c3, n3)
    requires Leads(n3, c3, w, c, n)
    ensures CameTo(s, Exec(s, Alone(t, w, 4)), t, c, n, HoldsLock(c))
  {
    var s2 := TwoSteps(s, t, w, c1, n1, c2, n2);
    var s4 := TwoSteps(s2, t, w, c3, n3, c, n);
    CameThen(s, s2, s4, t, c2, n2, HoldsLock(c2), c, n, HoldsLock(c));
    AloneSplit(s, t, w, 2, 2);
  }

  predicate Leads(n: Counts, c: Pc, w: bool, c': Pc, n': Counts) {
    (c', n') == Local(n, c, w) && c' != RdBlock && c' != WrBlock
  }

  /** The counters after `t` has become active. */
  function More(n: Counts, w: bool): Counts {
    if w then n.(activeWriters := n.activeWriters + 1) else n.(activeReaders := n.activeReaders + 1)
  }

  /** A check-in that finds nobody in its way: for a reader no writer, active or
      waiting, for a writer nobody active. */
  lemma CheckinEnters(s: State, t: Tid, w: bool)
    requires t in s.pc && s.pc[t] == Outside && s.holder == {}
    requires s.n.activeWriters + (if w then s.n.activeReaders else s.n.waitingWriters) == 0
    ensures CameTo(s, Exec(s, Alone(t, w, 4)), t, if w then Writing else Reading, More(s.n, w), false)
  {
    var n := More(s.n, w);
    if w {
      FourSteps(s, t, w, WrEnter, s.n, WrTest, s.n, WrDone, n, Writing, n);
    } else {
      FourSteps(s, t, w, RdEnter, s.n, RdTest, s.n, RdDone, n, Reading, n);
    }
  }

  /** `t` is at the end of the queue for condition `w` and waits. */
  ghost predicate Queued(s: State, s': State, t: Tid, w: bool) {
    && s'.pc == s.pc[t := if w then WrWait else RdWait] && s'.holder == {}
    && s'.okToRead == (if w then s.okToRead else s.okToRead + [t])
    && s'.okToWrite == (if w then s.okToWrite + [t] else s.okToWrite)
    && s'.n == if w then s.n.(waitingWriters := s.n.waitingWriters + 1)
               else s.n.(waitingReaders := s.n.waitingReaders + 1)
  }

  lemma WaitStep(s: State, t: Tid, w: bool) returns (s': State)
    requires t in s.pc && s.pc[t] == (if w then WrTest else RdTest) && s.holder == {t}
    requires s.n.activeWriters + (if w then s.n.activeReaders else s.n.waitingWriters) > 0
    ensures s' == Exec(s, Alone(t, w, 2)) && Queued(s, s', t, w)
  {
    var s1 := BlockStep(s, t, w);
    s' := GoToSleep(s1, t, w);
    assert s.pc[t := s1.pc[t]][t := s'.pc[t]] == s.pc[t := s'.pc[t]];
    TwoExec(s, s1, s', t, w);
  }

  lemma BlockStep(s: State, t: Tid, w: bool) returns (s': State)
    requires t in s.pc && s.pc[t] == (if w then WrTest else RdTest) && s.holder == {t}
    requires s.n.activeWriters + (if w then s.n.activeReaders else s.n.waitingWriters) > 0
    ensures s' == Take(s, Choice(t, w)) && s'.pc == s.pc[t := if w then WrBlock else RdBlock] && s'.holder == {t}
    ensures s'.okToRead == (if w then s.okToRead else s.okToRead + [t])
    ensures s'.okToWrite == (if w then s.okToWrite + [t] else s.okToWrite)
    ensures s'.n == if w then s.n.(waitingWriters := s.n.waitingWriters + 1)
                    else s.n.(waitingReaders := s.n.waitingReaders + 1)
  {
    s' := Take(s, Choice(t, w));
  }

  lemma GoToSleep(s: State, t: Tid, w: bool) returns (s': State)
    requires t in s.pc && s.pc[t] == (if w then WrBlock else RdBlock) && s.holder == {t}
    ensures s' == Take(s, Choice(t, w)) && CameTo(s, s', t, if w then WrWait else RdWait, s.n, false)
  {
    if w {
      s' := AloneStep(s, t, w, WrWait, s.n, false);
    } else {
      s' := AloneStep(s, t, w, RdWait, s.n, false);
    }
  }

  /** A check-in that finds somebody in the way waits at the end of its queue: a
      reader for any writer, a writer for anybody active. */
  lemma CheckinWaits(s: State, t: Tid, w: bool)
    requires t in s.pc && s.pc[t] == Outside && s.holder == {}
    requires s.n.activeWriters + (if w then s.n.activeReaders else s.n.waitingWriters) > 0
    ensures Queued(s, Exec(s, Alone(t, w, 4)), t, w)
  {
    var s2 := ToTest(s, t, w);
    var s4 := WaitStep(s2, t, w);
    CameQueued(s, s2, s4, t, w, s2.pc[t]);
    AloneSplit(s, t, w, 2, 2);
  }

  lemma CameQueued(s: State, s1: State, s2: State, t: Tid, w: bool, c: Pc)
    requires t in s.pc && CameTo(s, s1, t, c, s.n, true) && Queued(s1, s2, t, w)
    ensures Queued(s, s2, t, w)
  {
  }

  lemma ToTest(s: State, t: Tid, w: bool) returns (s': State)
    requires t in s.pc && s.pc[t] == Outside && s.holder == {}
    ensures s' == Exec(s, Alone(t, w, 2)) && CameTo(s, s', t, if w then WrTest else RdTest, s.n, true)
  {
    if w {
      s' := TwoSteps(s, t, w, WrEnter, s.n, WrTest, s.n);
    } else {
      s' := TwoSteps(s, t, w, RdEnter, s.n, RdTest, s.n);
    }
  }

  /** `t` has gone to `c`; these threads at the front of the two queues have been
      woken. */
  ghost predicate LeftBy(s: State, s': State, t: Tid, c: Pc, n: Counts, writers: seq<Tid>, readers: seq<Tid>) {
    && s'.pc.Keys == s.pc.Keys && s'.n == n
    && (forall u | u in s.pc :: s'.pc[u] ==
          if u == t then c else if u in writers then WrWoken else if u in readers then RdWoken else s.pc[u])
    && s.okToWrite == writers + s'.okToWrite && s.okToRead == readers + s'.okToRead
  }

  /** The counters after `t` is no longer active. */
  function Less(n: Counts, w: bool): Counts {
    if w then n.(activeWriters := n.activeWriters - 1) else n.(activeReaders := n.activeReaders - 1)
  }

  /** The writer that a leaving thread wakes, and the readers. */
  function WritersWoken(s: State, w: bool): seq<Tid> {
    if s.okToWrite != [] && s.n.waitingWriters > 0 && (w || s.n.activeReaders == 1) then [s.okToWrite[0]] else []
  }

  function ReadersWoken(s: State, w: bool): seq<Tid> {
    if w && s.n.waitingWriters <= 0 && s.n.waitingReaders > 0 then s.okToRead else []
  }

  /** The move of a thread that leaves, before it wakes anybody. */
  ghost predicate Leaving(s: State, s1: State, t: Tid, w: bool) {
    && t in s.pc && s1.pc == s.pc[t := if w then WrFree else RdFree] && s1.n == Less(s.n, w) && s1.holder == s.holder
    && s1.okToWrite == s.okToWrite && s1.okToRead == s.okToRead
  }

  lemma ExitMove(s: State, t: Tid, w: bool) returns (s1: State, s2: State)
    requires t in s.pc && s.pc[t] == (if w then WrExit else RdExit)
    ensures s2 == Take(s, Choice(t, w)) && Leaving(s, s1, t, w)
    ensures s2 == if s.n.waitingWriters > 0 && (w || s.n.activeReaders == 1) then SignalWriter(s1)
                  else if w && s.n.waitingReaders > 0 then BroadcastReaders(s1) else s1
  {
    s1, s2 := Move(s, t, w), Take(s, Choice(t, w));
  }

  lemma LeaveSignals(s: State, s1: State, t: Tid, w: bool)
    requires Leaving(s, s1, t, w) && t !in s.okToWrite && s.okToWrite != [] && s.okToWrite[0] in s.pc
    ensures LeftBy(s, SignalWriter(s1), t, if w then WrFree else RdFree, Less(s.n, w), [s.okToWrite[0]], [])
  {
    assert s.okToWrite == [s.okToWrite[0]] + s.okToWrite[1..];
  }

  lemma LeaveCasts(s: State, s1: State, t: Tid)
    requires Leaving(s, s1, t, true) && t !in s.okToRead
    ensures LeftBy(s, BroadcastReaders(s1), t, WrFree, Less(s.n, true), [], s.okToRead)
  {
  }

  lemma ExitStep(s: State, t: Tid, w: bool) returns (s': State)
    requires t in s.pc && s.pc[t] == (if w then WrExit else RdExit) && s.holder == {t} && QueueInv(s)
    ensures s' == Take(s, Choice(t, w)) && s'.holder == {t} && t in s'.pc && s'.n == Less(s.n, w)
    ensures s'.pc[t] == if w then WrFree else RdFree
    ensures LeftBy(s, s', t, s'.pc[t], Less(s.n, w), WritersWoken(s, w), ReadersWoken(s, w))
  {
    var s1;
    s1, s' := ExitMove(s, t, w);
    NotQueued(s, t, w);
    if s.n.waitingWriters > 0 && (w || s.n.activeReaders == 1) && s.okToWrite != [] {
      LeaveSignals(s, s1, t, w);
    } else if w && s.n.waitingWriters <= 0 && s.n.waitingReaders > 0 {
      LeaveCasts(s, s1, t);
    } else {
      LeaveQuietly(s, s1, t, w);
    }
  }

  lemma NotQueued(s: State, t: Tid, w: bool)
    requires t in s.pc && s.pc[t] == (if w then WrExit else RdExit) && QueueInv(s)
    ensures t !in s.okToWrite && t !in s.okToRead && (s.okToWrite != [] ==> s.okToWrite[0] in s.pc)
  {
    if s.okToWrite != [] {
      assert s.okToWrite[0] in s.okToWrite;
    }
  }

  lemma LeaveQuietly(s: State, s1: State, t: Tid, w: bool)
    requires Leaving(s, s1, t, w)
    ensures LeftBy(s, s1, t, if w then WrFree else RdFree, Less(s.n, w), [], [])
  {
  }

  lemma LeftThen(s: State, s1: State, s2: State, t: Tid, c1: Pc, n: Counts, c: Pc, writers: seq<Tid>, readers: seq<Tid>)
    requires LeftBy(s, s1, t, c1, n, writers, readers) && CameTo(s1, s2, t, c, n, false) && t in s.pc
    ensures LeftBy(s, s2, t, c, n, writers, readers)
  {
  }

  /** A checkout: the thread is outside, the counter of its kind is one less and the
      others are as they were, and it has woken whom it should: the first waiting
      writer if nobody is active any more, or all readers if no writer waits. */
  lemma CheckoutEnds(s: State, t: Tid, w: bool)
    requires Reachable(s) && t in s.pc && s.pc[t] == (if w then Writing else Reading) && s.holder == {}
    ensures var s' := Exec(s, Alone(t, w, 4));
      s'.holder == {} && LeftBy(s, s', t, Outside, Less(s.n, w), WritersWoken(s, w), ReadersWoken(s, w))
  {
    ReachableInv(s);
    CheckoutFrom(s, t, w);
  }

  lemma CheckoutFrom(s: State, t: Tid, w: bool)
    requires QueueInv(s) && t in s.pc && s.pc[t] == (if w then Writing else Reading) && s.holder == {}
    ensures var s' := Exec(s, Alone(t, w, 4));
      s'.holder == {} && LeftBy(s, s', t, Outside, Less(s.n, w), WritersWoken(s, w), ReadersWoken(s, w))
  {
    var s2 := ToExit(s, t, w);
    var s4 := FromExit(s2, t, w);
    CameLeft(s, s2, s4, t, w, s2.pc[t]);
    AloneSplit(s, t, w, 2, 2);
  }

  lemma CameLeft(s: State, s1: State, s2: State, t: Tid, w: bool, c: Pc)
    requires t in s.pc && CameTo(s, s1, t, c, s.n, true)
    requires LeftBy(s1, s2, t, Outside, Less(s1.n, w), WritersWoken(s1, w), ReadersWoken(s1, w))
    ensures LeftBy(s, s2, t, Outside, Less(s.n, w), WritersWoken(s, w), ReadersWoken(s, w))
  {
    assert WritersWoken(s1, w) == WritersWoken(s, w) && ReadersWoken(s1, w) == ReadersWoken(s, w);
  }

  lemma ToExit(s: State, t: Tid, w: bool) returns (s': State)
    requires t in s.pc && s.pc[t] == (if w then Writing else Reading) && s.holder == {} && QueueInv(s)
    ensures s' == Exec(s, Alone(t, w, 2)) && CameTo(s, s', t, if w then WrExit else RdExit, s.n, true) && QueueInv(s')
  {
    if w {
      s' := TwoSteps(s, t, w, WrLeave, s.n, WrExit, s.n);
    } else {
      s' := TwoSteps(s, t, w, RdLeave, s.n, RdExit, s.n);
    }
    StillQueued(s, s', t);
  }

  lemma FromExit(s: State, t: Tid, w: bool) returns (s': State)
    requires t in s.pc && s.pc[t] == (if w then WrExit else RdExit) && s.holder == {t} && QueueInv(s)
    ensures s' == Exec(s, Alone(t, w, 2)) && s'.holder == {}
    ensures LeftBy(s, s', t, Outside, Less(s.n, w), WritersWoken(s, w), ReadersWoken(s, w))
  {
    var s1 := ExitStep(s, t, w);
    s' := FreeStep(s1, t, w);
    LeftThen(s, s1, s', t, s1.pc[t], Less(s.n, w), Outside, WritersWoken(s, w), ReadersWoken(s, w));
    TwoExec(s, s1, s', t, w);
  }

  lemma FreeStep(s: State, t: Tid, w: bool) returns (s': State)
    requires t in s.pc && s.pc[t] == (if w then WrFree else RdFree) && s.holder == {t}
    ensures s' == Take(s, Choice(t, w)) && CameTo(s, s', t, Outside, s.n, false)
  {
    if w {
      s' := AloneStep(s, t, w, Outside, s.n, false);
    } else {
      s' := AloneStep(s, t, w, Outside, s.n, false);
    }
  }

  lemma TwoExec(s: State, s1: State, s2: State, t: Tid, w: bool)
    requires s1 == Take(s, Choice(t, w)) && s2 == Take(s1, Choice(t, w))
    ensures s2 == Exec(s, Alone(t, w, 2))
  {
    AloneFirst(s, t, w, 2);
    AloneFirst(s1, t, w, 1);
  }

  lemma StillQueued(s: State, s': State, t: Tid)
    requires QueueInv(s) && t in s.pc && t in s'.pc && s'.pc == s.pc[t := s'.pc[t]]
    requires s'.okToRead == s.okToRead && s'.okToWrite == s.okToWrite
    requires !QueuedReader(s.pc[t]) && !QueuedWriter(s.pc[t]) && !QueuedReader(s'.pc[t]) && !QueuedWriter(s'.pc[t])
    ensures QueueInv(s')
  {
  }

  /** The counters after a woken thread has stopped waiting and become active. */
  function Entered(n: Counts, w: bool): Counts {
    if w then n.(waitingWriters := n.waitingWriters - 1, activeWriters := n.activeWriters + 1)
    else n.(waitingReaders := n.waitingReaders - 1, activeReaders := n.activeReaders + 1)
  }

  /** A woken thread that finds nobody in its way becomes active. */
  lemma WokenEnters(s: State, t: Tid, w: bool)
    requires t in s.pc && s.pc[t] == (if w then WrWoken else RdWoken) && s.holder == {}
    requires s.n.activeWriters + (if w then s.n.activeReaders else s.n.waitingWriters) == 0
    ensures CameTo(s, Exec(s, Alone(t, w, 4)), t, if w then Writing else Reading, Entered(s.n, w), false)
  {
    if w {
      WriterResumes(s, t);
    } else {
      ReaderResumes(s, t);
    }
  }

  lemma WriterResumes(s: State, t: Tid)
    requires t in s.pc && s.pc[t] == WrWoken && s.holder == {} && s.n.activeWriters + s.n.activeReaders == 0
    ensures CameTo(s, Exec(s, Alone(t, true, 4)), t, Writing, Entered(s.n, true), false)
  {
    var n := s.n.(waitingWriters := s.n.waitingWriters - 1);
    FourSteps(s, t, true, WrResume, s.n, WrTest, n, WrDone, Entered(s.n, true), Writing, Entered(s.n, true));
  }

  lemma ReaderResumes(s: State, t: Tid)
    requires t in s.pc && s.pc[t] == RdWoken && s.holder == {} && s.n.activeWriters + s.n.waitingWriters == 0
    ensures CameTo(s, Exec(s, Alone(t, false, 4)), t, Reading, Entered(s.n, false), false)
  {
    var n := s.n.(waitingReaders := s.n.waitingReaders - 1);
    FourSteps(s, t, false, RdResume, s.n, RdTest, n, RdDone, Entered(s.n, false), Reading, Entered(s.n, false));
  }
}
