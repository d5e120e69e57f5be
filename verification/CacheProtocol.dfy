/** The locking protocol of the sector cache: `get_cached_sector`, the reads and
    writes built on it, and the flush, run by any number of threads under every
    interleaving.

    There are two levels of locks: one for the list of cached sectors, and one
    in each cached sector. A step is what a thread does between two points where
    another thread may run; bytes are copied one at a time. The flush takes the
    lock of the list and no lock of an entry. */
module CacheProtocol {
  import opened Common
  import opened Sectors

  type Tid = nat
  type Sector = nat

  const CAPACITY: nat := 64

  datatype Op = Read(ofs: nat, size: nat) | Write(ofs: nat, data: seq<Byte>) | Flush

  /** How many bytes are copied. */
  function Size(op: Op): nat {
    if op.Read? then op.size else if op.Write? then |op.data| else 0
  }

  /** The bytes are inside the sector. */
  predicate Fits(op: Op) {
    !op.Flush? ==> op.ofs + Size(op) <= SECTOR_SIZE
  }

  /** `struct cached_sector`. */
  datatype Entry = Entry(sec: Sector, dirty: bool, data: Block, owner: Option<Tid>)

  datatype Phase =
    | Idle
    | Start       // wants the list lock
    | Scan        // holds the list lock, looks at list position `at`
    | Hit         // found entry `at`, about to release the list lock
    | WaitEntry   // wants the lock of entry `at`
    | Recheck     // holds the lock of entry `at`
    | Retry       // the entry was reused meanwhile; about to release its lock
    | WaitVictim  // holds the list lock, wants the lock of the last entry `at`
    | Evict       // holds both locks, the entry is off the list
    | Fill        // old contents are safe, about to load the new ones
    | Link        // loaded, about to put the entry in front of the list
    | Linked      // on the list, about to release the list lock
    | Use         // `get_cached_sector` has returned; `n` bytes are copied
    | Mark        // data copied in, about to set the dirty bit
    | Unlock      // about to release the entry's lock
    | Sweep       // the flush holds the list lock, looks at list position `at`
    | Save        // found the entry there dirty, about to write it to the device
    | Clear       // about to clear its dirty bit

  /** Where a thread is: `blank` tells that it made the entry for a write, without
      the sector's contents, and `buf` is what a read has copied. */
  datatype Pc = Pc(ph: Phase, sec: Sector, op: Op, at: nat, n: nat, blank: bool, buf: seq<Byte>)

  /** What callers can observe: the reads and writes in the order in which they
      are done with the cached data. */
  datatype Event =
    | DidRead(sec: Sector, ofs: nat, data: seq<Byte>)
    | DidWrite(sec: Sector, ofs: nat, data: seq<Byte>, blank: bool)

  datatype State = State(
    pc: map<Tid, Pc>,
    cacheLock: Option<Tid>,
    list: seq<nat>,
    entries: seq<Entry>,
    disk: map<Sector, Block>,
    log: seq<Event>)

  datatype Request = Request(sec: Sector, op: Op)

  // --- the steps ---------------------------------------------------------

  /** Phases of the flush. */
  predicate Sweeping(ph: Phase) { ph.Sweep? || ph.Save? || ph.Clear? }

  /** Phases of a miss that replaces an entry, under the list lock. */
  predicate Reusing(ph: Phase) { ph.WaitVictim? || ph.Evict? || ph.Fill? || ph.Link? || ph.Linked? }

  /** Phases that work on one entry, without the list lock. */
  predicate Using(ph: Phase) {
    ph.WaitEntry? || ph.Recheck? || ph.Retry? || ph.Use? || ph.Mark? || ph.Unlock?
  }

  /** Phases that work on the entry `at`. */
  predicate OnEntry(ph: Phase) { Reusing(ph) || Using(ph) }

  /** The next step of `t` stays inside the list, the entries, the device and the
      sector. */
  predicate Safe(g: State, t: Tid)
    requires t in g.pc
  {
    var c := g.pc[t];
    && (c.ph == Scan ==> ScanSafe(g, c))
    && (OnEntry(c.ph) ==> EntrySafe(g, c))
    && (Sweeping(c.ph) ==> SweepSafe(g, c))
  }

  predicate ScanSafe(g: State, c: Pc) {
    if c.at < |g.list| then g.list[c.at] < |g.entries| else |g.list| < CAPACITY || g.list != []
  }

  predicate EntrySafe(g: State, c: Pc) {
    && c.at < |g.entries|
    && (c.ph == WaitVictim ==> g.list != [])
    && (c.ph == Evict ==> g.entries[c.at].sec in g.disk)
    && (c.ph == Fill ==> c.sec in g.disk)
    && (c.ph == Use ==> !c.op.Flush? && Fits(c.op))
  }

  /** The list is not empty, as the flush asserts. */
  predicate SweepSafe(g: State, c: Pc) {
    && g.list != []
    && (c.at < |g.list| ==> g.list[c.at] < |g.entries|)
    && (c.ph == Save || c.ph == Clear ==> c.at < |g.list|)
    && (c.ph == Save ==> g.entries[g.list[c.at]].sec in g.disk)
  }

  /** What callers must respect: the sector and its bytes exist, and a flush finds
      something cached. */
  predicate Proper(g: State, req: Request) {
    if req.op.Flush? then g.entries != [] else req.sec in g.disk && Fits(req.op)
  }

  /** A lock that the next step takes must be free. */
  predicate Enabled(g: State, t: Tid, req: Request) {
    && t in g.pc
    && Safe(g, t)
    && (g.pc[t].ph == Idle ==> Proper(g, req))
    && (g.pc[t].ph == Start ==> g.cacheLock == None)
    && (g.pc[t].ph == WaitEntry || g.pc[t].ph == WaitVictim ==>
          g.entries[g.pc[t].at].owner == None)
  }

  function Goto(g: State, t: Tid, c: Pc): State {
    g.(pc := g.pc[t := c])
  }

  /** One turn of the search loop; at the end of the list, an entry is made or
      the last one is chosen for eviction. */
  function ScanStep(g: State, t: Tid, c: Pc): State
    requires ScanSafe(g, c)
  {
    if c.at < |g.list| then
      if g.entries[g.list[c.at]].sec == c.sec
      then Goto(g, t, c.(ph := Hit, at := g.list[c.at]))
      else Goto(g, t, c.(at := c.at + 1))
    else if |g.list| < CAPACITY then
      Goto(g, t, c.(ph := Fill, at := |g.entries|))
        .(entries := g.entries + [Entry(0, false, Zeros(), Some(t))])
    else
      Goto(g, t, c.(ph := WaitVictim, at := g.list[|g.list| - 1]))
  }

  function SetEntry(g: State, e: nat, x: Entry): State
    requires e < |g.entries|
  {
    g.(entries := g.entries[e := x])
  }

  /** One byte is copied, or the copy is complete. */
  function UseStep(g: State, t: Tid, c: Pc): State
    requires EntrySafe(g, c) && c.ph == Use
  {
    var x := g.entries[c.at];
    if c.n < Size(c.op) then
      if c.op.Write? then
        SetEntry(Goto(g, t, c.(n := c.n + 1)), c.at,
                 x.(data := x.data[c.op.ofs + c.n := c.op.data[c.n]]))
      else
        Goto(g, t, c.(n := c.n + 1, buf := c.buf + [x.data[c.op.ofs + c.n]]))
    else if c.op.Write? then
      Goto(g, t, c.(ph := Mark)).(log := g.log + [DidWrite(c.sec, c.op.ofs, c.op.data, c.blank)])
    else
      Goto(g, t, c.(ph := Unlock)).(log := g.log + [DidRead(c.sec, c.op.ofs, c.buf)])
  }

  function UserStep(g: State, t: Tid, c: Pc): State
    requires Using(c.ph) && EntrySafe(g, c)
  {
    var x := g.entries[c.at];
    match c.ph
    case WaitEntry => SetEntry(Goto(g, t, c.(ph := Recheck)), c.at, x.(owner := Some(t)))
    case Recheck => Goto(g, t, c.(ph := if x.sec == c.sec then Use else Retry))
    case Retry => SetEntry(Goto(g, t, c.(ph := Start)), c.at, x.(owner := None))
    case Use => UseStep(g, t, c)
    case Mark => SetEntry(Goto(g, t, c.(ph := Unlock)), c.at, x.(dirty := true))
    case Unlock => SetEntry(Goto(g, t, Still()), c.at, x.(owner := None))
  }

  function ReuseStep(g: State, t: Tid, c: Pc): State
    requires Reusing(c.ph) && EntrySafe(g, c)
  {
    var x := g.entries[c.at];
    match c.ph
    case WaitVictim =>
      SetEntry(Goto(g, t, c.(ph := Evict)), c.at, x.(owner := Some(t)))
        .(list := g.list[..|g.list| - 1])
    case Evict =>
      Goto(g, t, c.(ph := Fill)).(disk := if x.dirty then g.disk[x.sec := x.data] else g.disk)
    case Fill =>
      SetEntry(Goto(g, t, c.(ph := Link, blank := c.op.Write?)), c.at,
               x.(sec := c.sec, dirty := false,
                  data := if c.op.Write? then Zeros() else g.disk[c.sec]))
    case Link => Goto(g, t, c.(ph := Linked)).(list := [c.at] + g.list)
    case Linked => Goto(g, t, c.(ph := Use)).(cacheLock := None)
  }

  /** One step of the flush. Between the write and the clearing of the dirty bit
      other threads may move. */
  function SweepStep(g: State, t: Tid, c: Pc): State
    requires Sweeping(c.ph) && SweepSafe(g, c)
  {
    if c.at >= |g.list| then
      Goto(g, t, Still()).(cacheLock := None)
    else
      var e := g.list[c.at];
      var x := g.entries[e];
      match c.ph
      case Save => Goto(g, t, c.(ph := Clear)).(disk := g.disk[x.sec := x.data])
      case Clear => SetEntry(Goto(g, t, c.(ph := Sweep, at := c.at + 1)), e, x.(dirty := false))
      case _ => Goto(g, t, if x.dirty then c.(ph := Save) else c.(at := c.at + 1))
  }

  function Still(): Pc { Pc(Idle, 0, Flush, 0, 0, false, []) }

  predicate Asking(ph: Phase) { ph.Idle? || ph.Start? || ph.Hit? }

  function AskStep(g: State, t: Tid, c: Pc, req: Request): State
    requires Asking(c.ph)
  {
    match c.ph
    case Idle => Goto(g, t, Pc(Start, req.sec, req.op, 0, 0, false, []))
    case Start => Goto(g, t, c.(ph := if c.op.Flush? then Sweep else Scan, at := 0)).(cacheLock := Some(t))
    case Hit => Goto(g, t, c.(ph := WaitEntry)).(cacheLock := None)
  }

  function Next(g: State, t: Tid, req: Request): State
    requires Enabled(g, t, req)
  {
    var c := g.pc[t];
    if Using(c.ph) then UserStep(g, t, c)
    else if Reusing(c.ph) then ReuseStep(g, t, c)
    else if Sweeping(c.ph) then SweepStep(g, t, c)
    else if Asking(c.ph) then AskStep(g, t, c, req)
    else ScanStep(g, t, c)
  }

  // --- what every step keeps ---------------------------------------------

  predicate HoldsCache(ph: Phase) {
    || ph.Scan? || ph.Hit? || ph.WaitVictim? || ph.Evict? || ph.Fill? || ph.Link? || ph.Linked?
    || Sweeping(ph)
  }

  predicate HoldsEntry(ph: Phase) {
    || ph.Recheck? || ph.Retry? || ph.Evict? || ph.Fill? || ph.Link? || ph.Linked?
    || ph.Use? || ph.Mark? || ph.Unlock?
  }

  /** Phases in which the entry is off the list. */
  predicate OffList(ph: Phase) { ph.Evict? || ph.Fill? || ph.Link? }

  /** Phases in which the thread has the entry of its sector. */
  predicate Has(ph: Phase) { ph.Linked? || ph.Use? || ph.Mark? || ph.Unlock? }

  /** The list lock is held exactly where the program says so. */
  ghost predicate CacheLockInv(g: State) {
    && (forall t | t in g.pc :: HoldsCache(g.pc[t].ph) <==> g.cacheLock == Some(t))
    && (g.cacheLock.Some? ==> g.cacheLock.value in g.pc)
  }

  /** And so is the lock of every entry. */
  ghost predicate EntryLocks(pc: map<Tid, Pc>, entries: seq<Entry>) {
    && (forall t | t in pc && OnEntry(pc[t].ph) :: pc[t].at < |entries|)
    && (forall t | t in pc && HoldsEntry(pc[t].ph) :: entries[pc[t].at].owner == Some(t))
    && (forall e | 0 <= e < |entries| && entries[e].owner.Some? ::
          var h := entries[e].owner.value;
          h in pc && HoldsEntry(pc[h].ph) && pc[h].at == e)
  }

  /** No cached sector on the list is `s`. */
  ghost predicate Absent(g: State, s: Sector) {
    forall j | 0 <= j < |g.list| :: g.list[j] < |g.entries| ==> g.entries[g.list[j]].sec != s
  }

  /** Entries on the list are distinct and stand for distinct sectors. */
  ghost predicate ListInv(g: State) {
    && (forall j | 0 <= j < |g.list| :: g.list[j] < |g.entries|)
    && (forall j | 0 <= j < |g.list| :: g.entries[g.list[j]].sec in g.disk)
    && (forall i, j | 0 <= i < j < |g.list| :: g.list[i] != g.list[j])
    && (forall i, j | 0 <= i < j < |g.list| :: g.entries[g.list[i]].sec != g.entries[g.list[j]].sec)
  }

  /** At most one entry is off the list: the one being reused. */
  ghost predicate SizeInv(g: State) {
    && |g.entries| <= CAPACITY
    && |g.entries| == |g.list| +
         (if g.cacheLock.Some? && g.cacheLock.value in g.pc && OffList(g.pc[g.cacheLock.value].ph)
          then 1 else 0)
  }

  /** Entry `e` is being reused by the thread that holds its lock. */
  ghost predicate Off(g: State, e: nat)
    requires e < |g.entries|
  {
    && g.entries[e].owner.Some?
    && g.entries[e].owner.value in g.pc
    && OffList(g.pc[g.entries[e].owner.value].ph)
  }

  /** Every other entry is on the list. */
  ghost predicate CoverInv(g: State) {
    forall e | 0 <= e < |g.entries| :: e in g.list || Off(g, e)
  }

  /** What a thread knows about its own operation. */
  predicate OpInv(c: Pc) {
    && Fits(c.op)
    && (Sweeping(c.ph) ==> c.op.Flush?)
    && (!Sweeping(c.ph) && !c.ph.Idle? && !c.ph.Start? ==> !c.op.Flush?)
    && (c.ph.Mark? ==> c.op.Write?)
    && (c.ph.Use? || c.ph.Mark? || c.ph.Unlock? || (c.n == 0 && c.buf == []))
    && (c.ph.Use? ==> c.n <= Size(c.op) && (c.op.Read? ==> |c.buf| == c.n))
    && (c.blank ==> c.op.Write?)
    && (!Reusing(c.ph) && !c.ph.Use? && !c.ph.Mark? && !c.ph.Unlock? ==> !c.blank)
  }

  /** What a thread at each phase may rely on. */
  ghost predicate PhaseInv(g: State, c: Pc) {
    && (!c.ph.Idle? ==> if c.op.Flush? then g.entries != [] else c.sec in g.disk)
    && (Sweeping(c.ph) ==> g.list != [] && c.at <= |g.list|)
    && (c.ph.Save? || c.ph.Clear? ==> c.at < |g.list|)
    && (c.ph.Scan? ==> c.at <= |g.list|)
    && (c.ph.Scan? ==> forall j | 0 <= j < c.at && j < |g.list| ::
                         g.list[j] < |g.entries| ==> g.entries[g.list[j]].sec != c.sec)
    && (c.ph.Hit? ==> c.at < |g.entries|)
    && (c.ph.WaitVictim? ==> g.list != [] && c.at == g.list[|g.list| - 1])
    && (c.ph.WaitVictim? || OffList(c.ph) ==> Absent(g, c.sec))
    && (OffList(c.ph) ==> c.at !in g.list)
    && (c.ph.Evict? && c.at < |g.entries| ==>
          g.entries[c.at].sec in g.disk && Absent(g, g.entries[c.at].sec) && g.entries[c.at].sec != c.sec)
    && (c.ph.Link? && c.at < |g.entries| ==> g.entries[c.at].sec == c.sec)
    && (Has(c.ph) ==> c.at in g.list && c.at < |g.entries| && g.entries[c.at].sec == c.sec)
  }

  ghost predicate PhasesInv(g: State) {
    forall t | t in g.pc :: PhaseInv(g, g.pc[t])
  }

  ghost predicate OpsInv(g: State) {
    forall t | t in g.pc :: OpInv(g.pc[t])
  }

  ghost predicate Shape(g: State) {
    && CacheLockInv(g) && EntryLocks(g.pc, g.entries) && OpsInv(g)
    && ListInv(g) && SizeInv(g) && CoverInv(g) && PhasesInv(g)
  }

  // --- what each kind of step does ---------------------------------------

  ghost predicate Moved(g: State, g': State, t: Tid) {
    t in g.pc && t in g'.pc && g'.pc == g.pc[t := g'.pc[t]]
  }

  /** How a user's turn changes its place and its entry. */
  predicate UserTurn(c: Pc, c': Pc, x: Entry, x': Entry, t: Tid) {
    match c.ph
    case WaitEntry => c' == c.(ph := Recheck) && x' == x.(owner := Some(t))
    case Recheck => c' == c.(ph := if x.sec == c.sec then Use else Retry) && x' == x
    case Retry => c' == c.(ph := Start) && x' == x.(owner := None)
    case Use => UseTurn(c, c', x, x')
    case Mark => c' == c.(ph := Unlock) && x' == x.(dirty := true)
    case Unlock => c' == Still() && x' == x.(owner := None)
    case _ => false
  }

  predicate UseTurn(c: Pc, c': Pc, x: Entry, x': Entry) {
    if c.n >= Size(c.op) then c' == c.(ph := if c.op.Write? then Mark else Unlock) && x' == x
    else if !c.op.Write? then
      && c.op.Read? && Fits(c.op) && x' == x
      && c' == c.(n := c.n + 1, buf := c.buf + [x.data[c.op.ofs + c.n]])
    else
      && Fits(c.op) && c' == c.(n := c.n + 1)
      && x' == x.(data := x.data[c.op.ofs + c.n := c.op.data[c.n]])
  }

  ghost predicate UserMove(g: State, g': State, t: Tid) {
    && Moved(g, g', t) && Using(g.pc[t].ph)
    && g'.list == g.list && g'.disk == g.disk && g'.cacheLock == g.cacheLock
    && g.pc[t].at < |g.entries| == |g'.entries|
    && (forall e | 0 <= e < |g.entries| && e != g.pc[t].at :: g'.entries[e] == g.entries[e])
    && UserTurn(g.pc[t], g'.pc[t], g.entries[g.pc[t].at], g'.entries[g.pc[t].at], t)
  }

  lemma UserMoves(g: State, t: Tid)
    requires t in g.pc && Using(g.pc[t].ph) && EntrySafe(g, g.pc[t])
    ensures UserMove(g, UserStep(g, t, g.pc[t]), t)
  {
  }

  /** The flush touches dirty bits and the device only. */
  ghost predicate SweepMove(g: State, g': State, t: Tid) {
    && Moved(g, g', t) && Sweeping(g.pc[t].ph) && SweepSafe(g, g.pc[t])
    && g'.list == g.list && g'.log == g.log
    && g'.disk.Keys == g.disk.Keys && |g'.entries| == |g.entries|
    && (forall e | 0 <= e < |g.entries| ::
          g'.entries[e] == g.entries[e].(dirty := g'.entries[e].dirty))
    && (if g.pc[t].at < |g.list| then SweepTurn(g, g', g.pc[t], g'.pc[t]) && g'.cacheLock == g.cacheLock
        else g'.pc[t] == Still() && g'.cacheLock == None && g'.entries == g.entries && g'.disk == g.disk)
  }

  ghost predicate SweepTurn(g: State, g': State, c: Pc, c': Pc)
    requires c.at < |g.list| && g.list[c.at] < |g.entries|
  {
    var e := g.list[c.at];
    var x := g.entries[e];
    if c.ph.Save? then
      c' == c.(ph := Clear) && g'.entries == g.entries && g'.disk == g.disk[x.sec := x.data]
    else if c.ph.Clear? then
      c' == c.(ph := Sweep, at := c.at + 1) && g'.disk == g.disk && g'.entries == g.entries[e := x.(dirty := false)]
    else
      && g'.disk == g.disk && g'.entries == g.entries
      && c' == if x.dirty then c.(ph := Save) else c.(at := c.at + 1)
  }

  lemma SweepMoves(g: State, t: Tid)
    requires t in g.pc && Sweeping(g.pc[t].ph) && SweepSafe(g, g.pc[t])
    ensures SweepMove(g, SweepStep(g, t, g.pc[t]), t)
  {
  }

  /** Asking, taking the list lock, and giving it back after a hit. */
  ghost predicate AskMove(g: State, g': State, t: Tid, req: Request) {
    && Moved(g, g', t) && Asking(g.pc[t].ph)
    && g'.list == g.list && g'.disk == g.disk && g'.entries == g.entries && g'.log == g.log
    && AskTurn(g.pc[t], g'.pc[t], req)
    && g'.cacheLock == if g.pc[t].ph.Start? then Some(t) else if g.pc[t].ph.Hit? then None else g.cacheLock
  }

  predicate AskTurn(c: Pc, c': Pc, req: Request) {
    match c.ph
    case Idle => c' == Pc(Start, req.sec, req.op, 0, 0, false, [])
    case Start => c' == c.(ph := if c.op.Flush? then Sweep else Scan, at := 0)
    case Hit => c' == c.(ph := WaitEntry)
    case _ => false
  }

  lemma AskMoves(g: State, t: Tid, req: Request)
    requires t in g.pc && Asking(g.pc[t].ph)
    ensures AskMove(g, AskStep(g, t, g.pc[t], req), t, req)
  {
  }

  lemma CacheLockStep(g: State, t: Tid, req: Request)
    requires CacheLockInv(g) && Enabled(g, t, req)
    ensures CacheLockInv(Next(g, t, req))
  {
    var c := g.pc[t];
    if Using(c.ph) {
      UserMoves(g, t);
      UserCacheLock(g, t, UserStep(g, t, c));
    } else if Reusing(c.ph) {
      ReuseCacheLock(g, t, ReuseStep(g, t, c));
    } else if Sweeping(c.ph) {
      SweepMoves(g, t);
      SweepCacheLock(g, t, SweepStep(g, t, c));
    } else if Asking(c.ph) {
      AskMoves(g, t, req);
      AskCacheLock(g, t, AskStep(g, t, c, req), req);
    } else {
      SearchCacheLock(g, t, ScanStep(g, t, c));
    }
  }

  lemma UserCacheLock(g: State, t: Tid, g': State)
    requires CacheLockInv(g) && UserMove(g, g', t)
    ensures CacheLockInv(g')
  {
  }

  lemma ReuseCacheLock(g: State, t: Tid, g': State)
    requires CacheLockInv(g) && t in g.pc && Reusing(g.pc[t].ph) && EntrySafe(g, g.pc[t])
    requires g' == ReuseStep(g, t, g.pc[t])
    ensures CacheLockInv(g')
  {
  }

  lemma SweepCacheLock(g: State, t: Tid, g': State)
    requires CacheLockInv(g) && SweepMove(g, g', t)
    ensures CacheLockInv(g')
  {
  }

  lemma AskCacheLock(g: State, t: Tid, g': State, req: Request)
    requires CacheLockInv(g) && AskMove(g, g', t, req) && (g.pc[t].ph.Start? ==> g.cacheLock == None)
    ensures CacheLockInv(g')
  {
  }

  lemma SearchCacheLock(g: State, t: Tid, g': State)
    requires CacheLockInv(g) && t in g.pc && g.pc[t].ph.Scan? && ScanSafe(g, g.pc[t])
    requires g' == ScanStep(g, t, g.pc[t])
    ensures CacheLockInv(g')
  {
  }

  /** Neither the locks nor the phase's claim on a lock changes. */
  lemma KeepLocks(pc: map<Tid, Pc>, entries: seq<Entry>, t: Tid, c: Pc, entries': seq<Entry>)
    requires EntryLocks(pc, entries) && t in pc
    requires |entries'| == |entries|
    requires forall e | 0 <= e < |entries| :: entries'[e].owner == entries[e].owner
    requires HoldsEntry(c.ph) == HoldsEntry(pc[t].ph)
    requires HoldsEntry(c.ph) ==> c.at == pc[t].at
    requires OnEntry(c.ph) ==> c.at < |entries|
    ensures EntryLocks(pc[t := c], entries')
  {
  }

  lemma TakeLock(pc: map<Tid, Pc>, entries: seq<Entry>, t: Tid, c: Pc, entries': seq<Entry>)
    requires EntryLocks(pc, entries) && t in pc
    requires |entries| <= |entries'| && c.at < |entries'| <= |entries| + 1
    requires forall e | 0 <= e < |entries| && e != c.at :: entries'[e] == entries[e]
    requires c.at < |entries| ==> |entries'| == |entries| && entries[c.at].owner == None
    requires entries'[c.at].owner == Some(t)
    requires HoldsEntry(c.ph) && !HoldsEntry(pc[t].ph)
    ensures EntryLocks(pc[t := c], entries')
  {
  }

  lemma DropLock(pc: map<Tid, Pc>, entries: seq<Entry>, t: Tid, c: Pc, entries': seq<Entry>)
    requires EntryLocks(pc, entries) && t in pc
    requires HoldsEntry(pc[t].ph) && !OnEntry(c.ph)
    requires pc[t].at < |entries| == |entries'|
    requires entries' == entries[pc[t].at := entries[pc[t].at].(owner := None)]
    ensures EntryLocks(pc[t := c], entries')
  {
  }

  lemma ScanLocks(g: State, t: Tid, g': State)
    requires EntryLocks(g.pc, g.entries) && t in g.pc && g.pc[t].ph.Scan? && ScanSafe(g, g.pc[t]) && ListInv(g)
    requires g' == ScanStep(g, t, g.pc[t])
    ensures EntryLocks(g'.pc, g'.entries)
  {
    var c' := g'.pc[t];
    if c'.ph == Fill {
      TakeLock(g.pc, g.entries, t, c', g'.entries);
    } else {
      KeepLocks(g.pc, g.entries, t, c', g'.entries);
    }
  }

  lemma AskLocks(g: State, t: Tid, g': State, req: Request)
    requires EntryLocks(g.pc, g.entries) && AskMove(g, g', t, req) && PhaseInv(g, g.pc[t])
    ensures EntryLocks(g'.pc, g'.entries)
  {
    KeepLocks(g.pc, g.entries, t, g'.pc[t], g'.entries);
  }

  lemma UserLocks(g: State, t: Tid, g': State)
    requires EntryLocks(g.pc, g.entries) && UserMove(g, g', t)
    requires g.pc[t].ph == WaitEntry ==> g.entries[g.pc[t].at].owner == None
    ensures EntryLocks(g'.pc, g'.entries)
  {
    var c, c' := g.pc[t], g'.pc[t];
    if c.ph == WaitEntry {
      TakeLock(g.pc, g.entries, t, c', g'.entries);
    } else if c.ph == Retry || c.ph == Unlock {
      DropLock(g.pc, g.entries, t, c', g'.entries);
    } else {
      KeepLocks(g.pc, g.entries, t, c', g'.entries);
    }
  }

  lemma ReuseLocks(g: State, t: Tid, g': State)
    requires EntryLocks(g.pc, g.entries) && t in g.pc && Reusing(g.pc[t].ph) && EntrySafe(g, g.pc[t])
    requires g.pc[t].ph == WaitVictim ==> g.entries[g.pc[t].at].owner == None
    requires g' == ReuseStep(g, t, g.pc[t])
    ensures EntryLocks(g'.pc, g'.entries)
  {
    var c' := g'.pc[t];
    if g.pc[t].ph == WaitVictim {
      TakeLock(g.pc, g.entries, t, c', g'.entries);
    } else {
      KeepLocks(g.pc, g.entries, t, c', g'.entries);
    }
  }

  lemma SweepLocks(g: State, t: Tid, g': State)
    requires EntryLocks(g.pc, g.entries) && SweepMove(g, g', t)
    ensures EntryLocks(g'.pc, g'.entries)
  {
    KeepLocks(g.pc, g.entries, t, g'.pc[t], g'.entries);
  }

  lemma EntryLockStep(g: State, t: Tid, req: Request)
    requires EntryLocks(g.pc, g.entries) && Enabled(g, t, req)
    requires PhaseInv(g, g.pc[t]) && ListInv(g)
    ensures EntryLocks(Next(g, t, req).pc, Next(g, t, req).entries)
  {
    var c := g.pc[t];
    if Using(c.ph) {
      UserMoves(g, t);
      UserLocks(g, t, UserStep(g, t, c));
    } else if Reusing(c.ph) {
      ReuseLocks(g, t, ReuseStep(g, t, c));
    } else if Sweeping(c.ph) {
      SweepMoves(g, t);
      SweepLocks(g, t, SweepStep(g, t, c));
    } else if Asking(c.ph) {
      AskMoves(g, t, req);
      AskLocks(g, t, AskStep(g, t, c, req), req);
    } else {
      ScanLocks(g, t, ScanStep(g, t, c));
    }
  }

  lemma OpStep(g: State, t: Tid, req: Request)
    requires Enabled(g, t, req) && OpInv(g.pc[t])
    ensures t in Next(g, t, req).pc && OpInv(Next(g, t, req).pc[t])
  {
    var c := g.pc[t];
    if Using(c.ph) {
      UserMoves(g, t);
      UserOp(g, t, UserStep(g, t, c));
    } else if Sweeping(c.ph) {
      SweepMoves(g, t);
      SweepOp(g, t, SweepStep(g, t, c));
    } else if Reusing(c.ph) {
      ReuseOp(g, t, ReuseStep(g, t, c));
    } else if Asking(c.ph) {
      AskMoves(g, t, req);
      AskOp(g, t, AskStep(g, t, c, req), req);
    }
  }

  lemma ReuseOp(g: State, t: Tid, g': State)
    requires t in g.pc && OpInv(g.pc[t]) && Reusing(g.pc[t].ph) && EntrySafe(g, g.pc[t])
    requires g' == ReuseStep(g, t, g.pc[t])
    ensures t in g'.pc && OpInv(g'.pc[t])
  {
  }

  lemma AskOp(g: State, t: Tid, g': State, req: Request)
    requires AskMove(g, g', t, req) && OpInv(g.pc[t]) && (g.pc[t].ph.Idle? ==> Fits(req.op))
    ensures OpInv(g'.pc[t])
  {
  }

  lemma UserOp(g: State, t: Tid, g': State)
    requires UserMove(g, g', t) && OpInv(g.pc[t])
    ensures OpInv(g'.pc[t])
  {
  }

  lemma SweepOp(g: State, t: Tid, g': State)
    requires SweepMove(g, g', t) && OpInv(g.pc[t])
    ensures OpInv(g'.pc[t])
  {
  }

  // --- the list ----------------------------------------------------------

  /** The list and what its entries stand for are untouched. */
  ghost predicate Quiet(g: State, g': State) {
    && g'.list == g.list
    && |g'.entries| == |g.entries|
    && (forall e | 0 <= e < |g.entries| :: g'.entries[e].sec == g.entries[e].sec)
    && g'.disk.Keys == g.disk.Keys
  }

  lemma QuietKeeps(g: State, g': State, c: Pc)
    requires Quiet(g, g')
    ensures ListInv(g) ==> ListInv(g')
    ensures PhaseInv(g, c) ==> PhaseInv(g', c)
  {
  }

  /** The steps that make an entry, take one off the list, give it a new
      sector, or put it back. */
  predicate Reshapes(g: State, t: Tid)
    requires t in g.pc
  {
    var c := g.pc[t];
    || (c.ph.Scan? && c.at >= |g.list| && |g.list| < CAPACITY)
    || c.ph.WaitVictim? || c.ph.Fill? || c.ph.Link?
  }

  lemma QuietStep(g: State, t: Tid, req: Request)
    requires Enabled(g, t, req) && !Reshapes(g, t)
    ensures Quiet(g, Next(g, t, req))
  {
    if Using(g.pc[t].ph) {
      UserMoves(g, t);
    } else if Sweeping(g.pc[t].ph) {
      SweepMoves(g, t);
    } else if Asking(g.pc[t].ph) {
      AskMoves(g, t, req);
    }
  }

  lemma ScanPhase(g: State, t: Tid, c: Pc)
    requires c.ph.Scan? && ScanSafe(g, c) && PhaseInv(g, c) && ListInv(g)
    requires c.at < |g.list| || |g.list| >= CAPACITY
    ensures PhaseInv(g, ScanStep(g, t, c).pc[t])
  {
    if c.at < |g.list| {
      if g.entries[g.list[c.at]].sec != c.sec {
        assert PhaseInv(g, c.(at := c.at + 1));
      }
    } else {
      assert Absent(g, c.sec);
    }
  }

  lemma AskPhase(g: State, t: Tid, g': State, req: Request)
    requires AskMove(g, g', t, req) && PhaseInv(g, g.pc[t]) && OpInv(g.pc[t]) && SizeInv(g)
    requires g.pc[t].ph.Idle? ==> Proper(g, req)
    requires g.pc[t].ph.Start? ==> g.cacheLock == None
    ensures PhaseInv(g, g'.pc[t])
  {
  }

  /** An entry whose lock is held for use is on the list. */
  lemma HeldIsListed(g: State, t: Tid)
    requires EntryLocks(g.pc, g.entries) && CoverInv(g)
    requires t in g.pc && HoldsEntry(g.pc[t].ph) && !OffList(g.pc[t].ph)
    ensures g.pc[t].at in g.list
  {
  }

  lemma UserPhase(g: State, t: Tid, g': State)
    requires UserMove(g, g', t)
    requires PhaseInv(g, g.pc[t]) && OpInv(g.pc[t]) && EntryLocks(g.pc, g.entries) && CoverInv(g)
    ensures PhaseInv(g, g'.pc[t])
  {
    if g.pc[t].ph == Recheck {
      HeldIsListed(g, t);
    }
  }

  lemma ReusePhase(g: State, t: Tid, g': State)
    requires t in g.pc && Reusing(g.pc[t].ph) && EntrySafe(g, g.pc[t]) && g' == ReuseStep(g, t, g.pc[t])
    requires PhaseInv(g, g.pc[t]) && !Reshapes(g, t)
    ensures t in g'.pc && PhaseInv(g, g'.pc[t])
  {
  }

  lemma SweepPhase(g: State, t: Tid, g': State)
    requires SweepMove(g, g', t) && PhaseInv(g, g.pc[t])
    ensures PhaseInv(g, g'.pc[t])
  {
  }

  lemma OwnPhase(g: State, t: Tid, req: Request)
    requires Shape(g) && Enabled(g, t, req) && !Reshapes(g, t)
    ensures t in Next(g, t, req).pc && PhaseInv(g, Next(g, t, req).pc[t])
  {
    var c := g.pc[t];
    assert PhaseInv(g, c) && OpInv(c);
    if Using(c.ph) {
      UserMoves(g, t);
      UserPhase(g, t, UserStep(g, t, c));
    } else if Reusing(c.ph) {
      ReusePhase(g, t, ReuseStep(g, t, c));
    } else if Sweeping(c.ph) {
      SweepMoves(g, t);
      SweepPhase(g, t, SweepStep(g, t, c));
    } else if Asking(c.ph) {
      AskMoves(g, t, req);
      AskPhase(g, t, AskStep(g, t, c, req), req);
    } else {
      ScanPhase(g, t, c);
    }
  }

  lemma QuietPhases(g: State, t: Tid, g': State)
    requires ListInv(g) && PhasesInv(g) && Quiet(g, g') && t in g.pc && t in g'.pc
    requires g'.pc == g.pc[t := g'.pc[t]] && PhaseInv(g, g'.pc[t])
    ensures ListInv(g') && PhasesInv(g')
  {
    forall u | u in g'.pc ensures PhaseInv(g', g'.pc[u]) {
      QuietKeeps(g, g', g'.pc[u]);
    }
    QuietKeeps(g, g', g.pc[t]);
  }

  lemma OwnMove(g: State, t: Tid, req: Request)
    requires Enabled(g, t, req)
    ensures t in Next(g, t, req).pc
    ensures Next(g, t, req).pc == g.pc[t := Next(g, t, req).pc[t]]
  {
    if Using(g.pc[t].ph) {
      UserMoves(g, t);
    } else if Sweeping(g.pc[t].ph) {
      SweepMoves(g, t);
    } else if Asking(g.pc[t].ph) {
      AskMoves(g, t, req);
    }
  }

  // --- the four steps that reshape the list ------------------------------

  /** While `t` holds the list lock, what other threads rely on is only that an
      entry they have locked stays where it is. */
  lemma OtherPhase(g: State, g': State, t: Tid, u: Tid, e: nat)
    requires CacheLockInv(g) && EntryLocks(g.pc, g.entries) && PhasesInv(g)
    requires t in g.pc && u in g.pc && u != t && g.cacheLock == Some(t)
    requires |g.entries| <= |g'.entries| && g'.disk.Keys == g.disk.Keys
    requires forall k | 0 <= k < |g.entries| && k != e :: g'.entries[k].sec == g.entries[k].sec
    requires forall k | k in g.list && k != e :: k in g'.list
    requires HoldsEntry(g.pc[u].ph) ==> g.pc[u].at != e
    ensures PhaseInv(g', g.pc[u])
  {
    assert !HoldsCache(g.pc[u].ph);
    assert PhaseInv(g, g.pc[u]);
  }

  ghost predicate OthersKeep(g: State, g': State, t: Tid) {
    forall u | u in g.pc && u != t :: PhaseInv(g', g.pc[u])
  }

  /** A new entry is not on the list. */
  lemma MakeKeeps(g: State, g': State, c: Pc)
    requires ListInv(g) && PhaseInv(g, c) && c.ph.Scan? && c.at >= |g.list|
    requires g'.list == g.list && g'.disk == g.disk && |g'.entries| == |g.entries| + 1
    requires forall k | 0 <= k < |g.entries| :: g'.entries[k] == g.entries[k]
    ensures ListInv(g') && PhaseInv(g', c.(ph := Fill, at := |g.entries|))
  {
    assert Absent(g, c.sec);
    assert forall e | e in g.list :: e < |g.entries|;
  }

  lemma MakeEntry(g: State, t: Tid, g': State)
    requires Shape(g) && t in g.pc && g.pc[t].ph.Scan? && Reshapes(g, t) && ScanSafe(g, g.pc[t])
    requires g' == ScanStep(g, t, g.pc[t])
    ensures ListInv(g') && OthersKeep(g, g', t) && PhaseInv(g', g'.pc[t])
  {
    assert PhaseInv(g, g.pc[t]);
    assert OpInv(g.pc[t]);
    forall u | u in g.pc && u != t ensures PhaseInv(g', g.pc[u]) {
      OtherPhase(g, g', t, u, |g.entries|);
    }
    MakeKeeps(g, g', g.pc[t]);
  }

  lemma VictimOff(g: State, g': State, c: Pc)
    requires ListInv(g) && PhaseInv(g, c) && c.ph.WaitVictim?
    requires g'.list == g.list[..|g.list| - 1] && |g'.entries| == |g.entries|
    requires forall k | 0 <= k < |g.entries| :: g'.entries[k].sec == g.entries[k].sec
    requires g'.disk == g.disk
    ensures ListInv(g') && PhaseInv(g', c.(ph := Evict))
  {
    var last := |g.list| - 1;
    assert g.entries[g.list[last]].sec != c.sec;
    assert forall j | 0 <= j < |g'.list| :: g'.list[j] == g.list[j] && g.list[j] != g.list[last];
  }

  lemma TakeVictim(g: State, t: Tid, g': State)
    requires Shape(g) && t in g.pc && g.pc[t].ph.WaitVictim? && EntrySafe(g, g.pc[t])
    requires g.entries[g.pc[t].at].owner == None
    requires g' == ReuseStep(g, t, g.pc[t])
    ensures ListInv(g') && OthersKeep(g, g', t) && PhaseInv(g', g'.pc[t])
  {
    assert PhaseInv(g, g.pc[t]);
    forall u | u in g.pc && u != t ensures PhaseInv(g', g.pc[u]) {
      OtherPhase(g, g', t, u, g.pc[t].at);
    }
    VictimOff(g, g', g.pc[t]);
  }

  lemma LoadEntry(g: State, t: Tid, g': State)
    requires Shape(g) && t in g.pc && g.pc[t].ph.Fill? && EntrySafe(g, g.pc[t])
    requires g' == ReuseStep(g, t, g.pc[t])
    ensures ListInv(g') && OthersKeep(g, g', t) && PhaseInv(g', g'.pc[t])
  {
    var e := g.pc[t].at;
    assert PhaseInv(g, g.pc[t]);
    assert forall j | 0 <= j < |g.list| :: g.list[j] != e;
    ListLoads(g, g', e);
    forall u | u in g.pc && u != t ensures PhaseInv(g', g.pc[u]) {
      OtherPhase(g, g', t, u, e);
    }
  }

  /** Changing an entry off the list keeps the list in order. */
  lemma ListLoads(g: State, g': State, e: nat)
    requires ListInv(g) && g'.list == g.list && |g'.entries| == |g.entries|
    requires forall k | 0 <= k < |g.entries| && k != e :: g'.entries[k].sec == g.entries[k].sec
    requires forall j | 0 <= j < |g.list| :: g.list[j] != e
    requires g'.disk == g.disk
    ensures ListInv(g')
  {
  }

  lemma LinkEntry(g: State, t: Tid, g': State)
    requires Shape(g) && t in g.pc && g.pc[t].ph.Link? && EntrySafe(g, g.pc[t])
    requires g' == ReuseStep(g, t, g.pc[t])
    ensures ListInv(g') && OthersKeep(g, g', t) && PhaseInv(g', g'.pc[t])
  {
    var e := g.pc[t].at;
    assert PhaseInv(g, g.pc[t]);
    assert g'.list == [e] + g.list;
    ListGrows(g, g', e);
    forall u | u in g.pc && u != t ensures PhaseInv(g', g.pc[u]) {
      OtherPhase(g, g', t, u, e);
    }
  }

  /** A new head keeps the list in order. */
  lemma ListGrows(g: State, g': State, e: nat)
    requires ListInv(g) && e < |g.entries| && g'.entries == g.entries && g'.list == [e] + g.list
    requires forall j | 0 <= j < |g.list| :: g.list[j] != e && g.entries[g.list[j]].sec != g.entries[e].sec
    requires g'.disk == g.disk && g.entries[e].sec in g.disk
    ensures ListInv(g')
  {
  }

  lemma SizeStep(g: State, t: Tid, req: Request)
    requires CacheLockInv(g) && SizeInv(g) && Enabled(g, t, req)
    ensures SizeInv(Next(g, t, req))
  {
    var c := g.pc[t];
    if Using(c.ph) {
      UserMoves(g, t);
      SizeKept(g, t, UserStep(g, t, c));
    } else if Reusing(c.ph) {
      SizeReuse(g, t, ReuseStep(g, t, c));
    } else if Sweeping(c.ph) {
      SweepMoves(g, t);
      SizeKept(g, t, SweepStep(g, t, c));
    } else if Asking(c.ph) {
      AskMoves(g, t, req);
      SizeAsk(g, t, AskStep(g, t, c, req), req);
    } else {
      SizeScan(g, t, ScanStep(g, t, c));
    }
  }

  lemma SizeKept(g: State, t: Tid, g': State)
    requires CacheLockInv(g) && SizeInv(g) && (UserMove(g, g', t) || SweepMove(g, g', t))
    ensures SizeInv(g')
  {
    assert g.cacheLock.Some? ==> g.cacheLock.value in g.pc && HoldsCache(g.pc[g.cacheLock.value].ph);
  }

  lemma SizeReuse(g: State, t: Tid, g': State)
    requires CacheLockInv(g) && SizeInv(g) && t in g.pc && Reusing(g.pc[t].ph) && EntrySafe(g, g.pc[t])
    requires g' == ReuseStep(g, t, g.pc[t])
    ensures SizeInv(g')
  {
    assert g.cacheLock == Some(t);
  }

  lemma SizeAsk(g: State, t: Tid, g': State, req: Request)
    requires CacheLockInv(g) && SizeInv(g) && AskMove(g, g', t, req)
    requires g.pc[t].ph.Start? ==> g.cacheLock == None
    ensures SizeInv(g')
  {
    assert g.cacheLock.Some? ==> HoldsCache(g.pc[g.cacheLock.value].ph);
  }

  lemma SizeScan(g: State, t: Tid, g': State)
    requires CacheLockInv(g) && SizeInv(g) && t in g.pc && g.pc[t].ph.Scan? && ScanSafe(g, g.pc[t])
    requires g' == ScanStep(g, t, g.pc[t])
    ensures SizeInv(g')
  {
    assert g.cacheLock == Some(t);
  }

  lemma CoverUser(g: State, t: Tid, g': State)
    requires EntryLocks(g.pc, g.entries) && CoverInv(g) && UserMove(g, g', t)
    requires g.pc[t].ph.WaitEntry? ==> g.entries[g.pc[t].at].owner == None
    ensures CoverInv(g')
  {
    forall e | 0 <= e < |g'.entries| ensures e in g'.list || Off(g', e) {
      assert e in g.list || Off(g, e);
    }
  }

  lemma CoverSweep(g: State, t: Tid, g': State)
    requires CoverInv(g) && SweepMove(g, g', t)
    ensures CoverInv(g')
  {
    forall e | 0 <= e < |g'.entries| ensures e in g'.list || Off(g', e) {
      assert e in g.list || Off(g, e);
    }
  }

  lemma CoverReuse(g: State, t: Tid, g': State)
    requires EntryLocks(g.pc, g.entries) && CoverInv(g) && t in g.pc && Reusing(g.pc[t].ph)
    requires EntrySafe(g, g.pc[t]) && PhaseInv(g, g.pc[t]) && g' == ReuseStep(g, t, g.pc[t])
    requires g.pc[t].ph.WaitVictim? ==> g.entries[g.pc[t].at].owner == None
    ensures CoverInv(g')
  {
    forall e | 0 <= e < |g'.entries| ensures e in g'.list || Off(g', e) {
      assert e in g.list || Off(g, e);
    }
  }

  lemma CoverAsk(g: State, t: Tid, g': State, req: Request)
    requires CoverInv(g) && AskMove(g, g', t, req)
    ensures CoverInv(g')
  {
    forall e | 0 <= e < |g'.entries| ensures e in g'.list || Off(g', e) {
      assert e in g.list || Off(g, e);
    }
  }

  lemma CoverScan(g: State, t: Tid, g': State)
    requires CoverInv(g) && t in g.pc && g.pc[t].ph.Scan? && ScanSafe(g, g.pc[t])
    requires g' == ScanStep(g, t, g.pc[t])
    ensures CoverInv(g')
  {
    forall e | 0 <= e < |g'.entries| ensures e in g'.list || Off(g', e) {
      if e < |g.entries| {
        assert e in g.list || Off(g, e);
      }
    }
  }

  lemma CoverStep(g: State, t: Tid, req: Request)
    requires Enabled(g, t, req) && EntryLocks(g.pc, g.entries) && PhaseInv(g, g.pc[t]) && CoverInv(g)
    ensures CoverInv(Next(g, t, req))
  {
    var c := g.pc[t];
    if Using(c.ph) {
      UserMoves(g, t);
      CoverUser(g, t, UserStep(g, t, c));
    } else if Reusing(c.ph) {
      CoverReuse(g, t, ReuseStep(g, t, c));
    } else if Sweeping(c.ph) {
      SweepMoves(g, t);
      CoverSweep(g, t, SweepStep(g, t, c));
    } else if Asking(c.ph) {
      AskMoves(g, t, req);
      CoverAsk(g, t, AskStep(g, t, c, req), req);
    } else {
      CoverScan(g, t, ScanStep(g, t, c));
    }
  }

  lemma ReuseShapes(g: State, t: Tid, g': State)
    requires Shape(g) && t in g.pc && Reusing(g.pc[t].ph) && Reshapes(g, t) && EntrySafe(g, g.pc[t])
    requires g.pc[t].ph.WaitVictim? ==> g.entries[g.pc[t].at].owner == None
    requires g' == ReuseStep(g, t, g.pc[t]) && t in g'.pc
    ensures ListInv(g') && OthersKeep(g, g', t) && PhaseInv(g', g'.pc[t])
  {
    if g.pc[t].ph.WaitVictim? {
      TakeVictim(g, t, g');
    } else if g.pc[t].ph.Fill? {
      LoadEntry(g, t, g');
    } else {
      LinkEntry(g, t, g');
    }
  }

  lemma PhaseStep(g: State, t: Tid, req: Request)
    requires Shape(g) && Enabled(g, t, req)
    ensures ListInv(Next(g, t, req)) && PhasesInv(Next(g, t, req))
  {
    var g' := Next(g, t, req);
    OwnMove(g, t, req);
    if Reshapes(g, t) && g.pc[t].ph.Scan? {
      MakeEntry(g, t, g');
    } else if Reshapes(g, t) {
      ReuseShapes(g, t, g');
    } else {
      QuietStep(g, t, req);
      OwnPhase(g, t, req);
      QuietPhases(g, t, g');
    }
  }

  lemma ShapeStep(g: State, t: Tid, req: Request)
    requires Shape(g) && Enabled(g, t, req)
    ensures Shape(Next(g, t, req))
  {
    OwnMove(g, t, req);
    CacheLockStep(g, t, req);
    EntryLockStep(g, t, req);
    OpStep(g, t, req);
    SizeStep(g, t, req);
    CoverStep(g, t, req);
    PhaseStep(g, t, req);
  }

  // --- whole runs --------------------------------------------------------

  function Init(threads: set<Tid>, disk: map<Sector, Block>): State {
    State(map t | t in threads :: Still(), None, [], [], disk, [])
  }

  datatype Choice = Choice(t: Tid, req: Request)

  /** A choice that cannot be taken is passed over, so every schedule is
      allowed. */
  function Take(g: State, c: Choice): State {
    if Enabled(g, c.t, c.req) then Next(g, c.t, c.req) else g
  }

  function Exec(g: State, schedule: seq<Choice>): State
    decreases |schedule|
  {
    if schedule == [] then g else Exec(Take(g, schedule[0]), schedule[1..])
  }

  lemma {:induction false} ShapeRun(g: State, schedule: seq<Choice>)
    requires Shape(g)
    ensures Shape(Exec(g, schedule))
    decreases |schedule|
  {
    if schedule != [] {
      var c := schedule[0];
      if Enabled(g, c.t, c.req) {
        ShapeStep(g, c.t, c.req);
      }
      ShapeRun(Take(g, c), schedule[1..]);
    }
  }

  /** Some run of some threads, reads, writes and flushes, leads to `g`. */
  ghost predicate Reachable(init: map<Sector, Block>, g: State) {
    exists threads, schedule :: g == Exec(Init(threads, init), schedule)
  }

  lemma ReachableShape(init: map<Sector, Block>, g: State)
    requires Reachable(init, g)
    ensures Shape(g)
  {
    var threads, schedule :| g == Exec(Init(threads, init), schedule);
    ShapeRun(Init(threads, init), schedule);
  }

  /** The cache never outgrows its capacity, and never holds a sector twice. */
  lemma Bounded(init: map<Sector, Block>, g: State)
    requires Reachable(init, g)
    ensures |g.list| <= CAPACITY
    ensures forall i | 0 <= i < |g.list| :: g.list[i] < |g.entries|
    ensures forall i, j | 0 <= i < j < |g.list| ::
              g.entries[g.list[i]].sec != g.entries[g.list[j]].sec
  {
    ReachableShape(init, g);
  }

  /** From the return of `get_cached_sector` until the entry's lock is released,
      the caller holds that lock and the entry is the requested sector's. */
  lemma ReturnsLockedEntry(init: map<Sector, Block>, g: State, t: Tid)
    requires Reachable(init, g) && t in g.pc
    requires g.pc[t].ph.Use? || g.pc[t].ph.Mark? || g.pc[t].ph.Unlock?
    ensures var e := g.pc[t].at;
      && e in g.list && e < |g.entries|
      && g.entries[e].owner == Some(t) && g.entries[e].sec == g.pc[t].sec
  {
    ReachableShape(init, g);
    assert PhaseInv(g, g.pc[t]);
  }

  /** A thread that waits for the list lock holds no entry's lock. */
  lemma NoHoldAndWait(init: map<Sector, Block>, g: State, t: Tid, e: nat)
    requires Reachable(init, g) && t in g.pc && g.pc[t].ph.Start? && e < |g.entries|
    ensures g.entries[e].owner != Some(t)
  {
    ReachableShape(init, g);
  }

  lemma ShapeIsSafe(g: State, t: Tid)
    requires Shape(g) && t in g.pc
    ensures Safe(g, t)
  {
    assert PhaseInv(g, g.pc[t]) && OpInv(g.pc[t]);
  }

  /** The steps never reach outside the list, the entries, the device or the
      sector, and the flush never finds an empty list. */
  lemma AlwaysSafe(init: map<Sector, Block>, g: State, t: Tid)
    requires Reachable(init, g) && t in g.pc
    ensures Safe(g, t)
  {
    ReachableShape(init, g);
    ShapeIsSafe(g, t);
  }

  lemma HolderMoves(g: State, e: nat, req: Request)
    requires Shape(g) && e < |g.entries| && g.entries[e].owner.Some?
    ensures var u := g.entries[e].owner.value; u in g.pc && !g.pc[u].ph.Idle? && Enabled(g, u, req)
  {
    ShapeIsSafe(g, g.entries[e].owner.value);
  }

  lemma WaiterMoves(g: State, t: Tid, req: Request)
    requires Shape(g) && t in g.pc && !g.pc[t].ph.Idle?
    requires g.pc[t].ph.Start? ==> g.cacheLock == None
    ensures exists u :: u in g.pc && !g.pc[u].ph.Idle? && Enabled(g, u, req)
  {
    ShapeIsSafe(g, t);
    if !Enabled(g, t, req) {
      HolderMoves(g, g.pc[t].at, req);
    }
  }

  /** No deadlock: blocked threads wait, directly or through the holder of the
      list lock, for a thread that can move. */
  lemma NoDeadlock(init: map<Sector, Block>, g: State, t: Tid, req: Request)
    requires Reachable(init, g) && t in g.pc && !g.pc[t].ph.Idle?
    ensures exists u :: u in g.pc && !g.pc[u].ph.Idle? && Enabled(g, u, req)
  {
    ReachableShape(init, g);
    if g.pc[t].ph.Start? && g.cacheLock.Some? {
      WaiterMoves(g, g.cacheLock.value, req);
    } else {
      WaiterMoves(g, t, req);
    }
  }
}
