/** `write_all_dirty_sectors`, as a thread among the others: when it leaves a
    sector as the last write made it, and what goes wrong when it does not. */
module CacheFlush {
  import opened Common
  import opened Sectors
  import opened CacheProtocol
  import opened CacheData

  /** The flush has come to the end of the list. */
  predicate AtEnd(g: State, f: Tid) {
    f in g.pc && g.pc[f].ph.Sweep? && g.pc[f].at >= |g.list|
  }

  /** The device has the contents of `s`, and no entry of it is marked dirty. */
  ghost predicate Saved(g: State, s: Sector, cur: Block) {
    s in g.disk && g.disk[s] == cur && forall j | 0 <= j < |g.list| && EntryAt(g, j, s) :: !g.entries[g.list[j]].dirty
  }

  lemma EndSaves(g: State, f: Tid, s: Sector, cur: Block)
    requires Shape(g) && DataInv(g, s, cur) && AtEnd(g, f)
    ensures Saved(g, s, cur)
  {
    assert Swept(g, g.pc[f], s, cur);
    if j :| 0 <= j < |g.list| && EntryAt(g, j, s) {
      var e := g.list[j];
      NotCopying(g, s, e);
      assert Stands(g, e, s) && EntryData(g, e, cur);
    } else {
      forall j | 0 <= j < |g.list| ensures g.list[j] < |g.entries| ==> g.entries[g.list[j]].sec != s {
        assert !EntryAt(g, j, s);
      }
      AbsentOnDisk(g, f, s, cur);
    }
  }

  /** In every calm run, a flush that comes to the end of the list has saved the
      sector. */
  lemma FlushSaves(init: map<Sector, Block>, g: State, s: Sector, f: Tid)
    requires Calmly(init, g, s) && s in init && AtEnd(g, f)
    ensures Saved(g, s, Contents(init[s], g.log, s))
  {
    CalmInv(init, g, s);
    EndSaves(g, f, s, Contents(init[s], g.log, s));
  }

  // --- schedules ---------------------------------------------------------

  lemma ExecMore(g: State, c: Choice, rest: seq<Choice>, s: Sector)
    ensures Exec(g, [c] + rest) == Exec(Take(g, c), rest)
    ensures Calm(g, [c] + rest, s) <==>
      (Enabled(g, c.t, c.req) && BeginsFlush(g.pc[c.t]) ==> NoWriter(g, s)) && Calm(Take(g, c), rest, s)
  {
    assert ([c] + rest)[1..] == rest;
  }

  lemma {:induction false} ExecThen(g: State, a: seq<Choice>, b: seq<Choice>, s: Sector)
    ensures Exec(g, a + b) == Exec(Exec(g, a), b)
    ensures Calm(g, a, s) && Calm(Exec(g, a), b, s) ==> Calm(g, a + b, s)
    decreases |a|
  {
    if a == [] {
      assert a + b == b;
    } else {
      ExecThen(Take(g, a[0]), a[1..], b, s);
      assert a + b == [a[0]] + (a[1..] + b);
      ExecMore(g, a[0], a[1..] + b, s);
    }
  }

  const NOTHING: Request := Request(0, Flush)

  /** Everything but dirty bits, the device and the place of `f` is as before. */
  ghost predicate SweepRun(g: State, g': State, f: Tid) {
    && Moved(g, g', f) && g'.list == g.list && g'.log == g.log && |g'.entries| == |g.entries|
    && (forall e | 0 <= e < |g.entries| :: g'.entries[e] == g.entries[e].(dirty := g'.entries[e].dirty))
  }

  function SweepRank(c: Pc, len: nat): nat
    requires c.at <= len
  {
    3 * (len - c.at) + if c.ph.Sweep? then 2 else if c.ph.Save? then 1 else 0
  }

  lemma SweepOne(g: State, f: Tid) returns (c: Choice, g': State)
    requires Shape(g) && f in g.pc && Sweeping(g.pc[f].ph) && g.pc[f].at < |g.list|
    ensures Shape(g') && g' == Take(g, c) && c.t == f && SweepRun(g, g', f) && SweepMove(g, g', f)
    ensures Sweeping(g'.pc[f].ph) && g'.pc[f].at <= |g'.list|
    ensures SweepRank(g'.pc[f], |g'.list|) < SweepRank(g.pc[f], |g.list|)
  {
    ShapeIsSafe(g, f);
    c := Choice(f, NOTHING);
    g' := Next(g, f, NOTHING);
    ShapeStep(g, f, NOTHING);
    SweepMoves(g, f);
    SweepOn(g, g', f);
  }

  lemma SweepOn(g: State, g': State, f: Tid)
    requires SweepMove(g, g', f) && g.pc[f].at < |g.list|
    ensures SweepRun(g, g', f) && Sweeping(g'.pc[f].ph) && g'.pc[f].at <= |g'.list|
    ensures SweepRank(g'.pc[f], |g'.list|) < SweepRank(g.pc[f], |g.list|)
  {
  }

  lemma SweepRunThen(g: State, g1: State, g2: State, f: Tid)
    requires SweepRun(g, g1, f) && SweepRun(g1, g2, f)
    ensures SweepRun(g, g2, f)
  {
  }

  /** Left alone, the flush comes to the end of the list. */
  lemma {:induction false} SweepAlone(g: State, f: Tid, s: Sector) returns (schedule: seq<Choice>, g': State)
    requires Shape(g) && f in g.pc && Sweeping(g.pc[f].ph) && g.pc[f].at <= |g.list|
    ensures g' == Exec(g, schedule) && Calm(g, schedule, s)
    ensures Shape(g') && AtEnd(g', f) && SweepRun(g, g', f)
    decreases SweepRank(g.pc[f], |g.list|)
  {
    if g.pc[f].at == |g.list| {
      assert PhaseInv(g, g.pc[f]);
      schedule, g' := [], g;
    } else {
      var c, g1 := SweepOne(g, f);
      var rest;
      rest, g' := SweepAlone(g1, f, s);
      schedule := [c] + rest;
      ExecMore(g, c, rest, s);
      SweepRunThen(g, g1, g', f);
    }
  }

  /** Everything but entry `e` and the place of `u` is as before. */
  ghost predicate UserRun(g: State, g': State, u: Tid, e: nat) {
    && Moved(g, g', u) && g'.list == g.list && |g'.entries| == |g.entries| && e < |g.entries|
    && (forall k | 0 <= k < |g.entries| && k != e :: g'.entries[k] == g.entries[k])
    && g'.entries[e].sec == g.entries[e].sec
  }

  lemma UserRunThen(g: State, g1: State, g2: State, u: Tid, e: nat)
    requires UserRun(g, g1, u, e) && UserRun(g1, g2, u, e)
    ensures UserRun(g, g2, u, e)
  {
  }

  function UserRank(c: Pc): nat {
    if c.ph.WaitEntry? then Size(c.op) + 5
    else if c.ph.Recheck? then Size(c.op) + 4
    else if c.ph.Use? then 3 + (if c.n < Size(c.op) then Size(c.op) - c.n else 0)
    else if c.ph.Mark? then 2
    else 1
  }

  lemma UserOne(g: State, u: Tid) returns (c: Choice, g': State)
    requires Shape(g) && u in g.pc && Using(g.pc[u].ph)
    requires g.pc[u].ph.WaitEntry? ==> g.pc[u].at < |g.entries| && g.entries[g.pc[u].at].owner == None
    ensures Shape(g') && UserMove(g, g', u) && g' == Take(g, c) && c.t == u
  {
    ShapeIsSafe(g, u);
    c := Choice(u, NOTHING);
    g' := Next(g, u, NOTHING);
    ShapeStep(g, u, NOTHING);
    UserMoves(g, u);
  }

  /** A user that is not about to let go keeps its entry. */
  lemma UserOn(g: State, g': State, u: Tid)
    requires UserMove(g, g', u) && OpInv(g.pc[u])
    ensures UserRun(g, g', u, g.pc[u].at)
    ensures !g.pc[u].ph.Retry? && !g.pc[u].ph.Unlock? ==>
      && Using(g'.pc[u].ph) && HoldsEntry(g'.pc[u].ph) && g'.pc[u].at == g.pc[u].at
      && UserRank(g'.pc[u]) < UserRank(g.pc[u])
  {
  }

  /** Whoever holds an entry can be run until it lets go. */
  lemma {:induction false} Release(g: State, u: Tid, s: Sector) returns (schedule: seq<Choice>, g': State)
    requires Shape(g) && u in g.pc && Using(g.pc[u].ph) && HoldsEntry(g.pc[u].ph)
    ensures g' == Exec(g, schedule) && Calm(g, schedule, s)
    ensures Shape(g') && UserRun(g, g', u, g.pc[u].at) && g'.entries[g.pc[u].at].owner == None
    decreases UserRank(g.pc[u])
  {
    assert OpInv(g.pc[u]);
    var c, g1 := UserOne(g, u);
    UserOn(g, g1, u);
    var rest := [];
    g' := g1;
    if !g.pc[u].ph.Retry? && !g.pc[u].ph.Unlock? {
      rest, g' := Release(g1, u, s);
      UserRunThen(g, g1, g', u, g.pc[u].at);
    }
    schedule := [c] + rest;
    ExecMore(g, c, rest, s);
  }

  /** A writer of `s` stays one until it has marked the entry. */
  lemma WriterOn(g: State, g': State, w: Tid, s: Sector)
    requires UserMove(g, g', w) && OpInv(g.pc[w]) && Writes(g, w, s)
    ensures g.pc[w].ph.Mark? ==> g'.entries[g.pc[w].at].dirty
    ensures !g.pc[w].ph.Mark? ==> Writes(g', w, s) && !g'.pc[w].ph.WaitEntry?
  {
  }

  /** A writer that has come upon the entry of `s`, and gets its lock, can be run
      until it has marked the entry dirty. */
  lemma {:induction false} MarkIt(g: State, w: Tid, s: Sector) returns (schedule: seq<Choice>, g': State)
    requires Shape(g) && Writes(g, w, s) && Using(g.pc[w].ph)
    requires g.pc[w].ph.WaitEntry? ==> g.entries[g.pc[w].at].owner == None
    ensures g' == Exec(g, schedule) && Calm(g, schedule, s)
    ensures UserRun(g, g', w, g.pc[w].at) && g'.entries[g.pc[w].at].dirty
    decreases UserRank(g.pc[w])
  {
    assert OpInv(g.pc[w]);
    var c, g1 := UserOne(g, w);
    UserOn(g, g1, w);
    WriterOn(g, g1, w, s);
    var rest := [];
    g' := g1;
    if !g.pc[w].ph.Mark? {
      rest, g' := MarkIt(g1, w, s);
      UserRunThen(g, g1, g', w, g.pc[w].at);
    }
    schedule := [c] + rest;
    ExecMore(g, c, rest, s);
  }

  /** An entry of `s` on the list is marked dirty. */
  ghost predicate LeftDirty(g: State, s: Sector) {
    exists j: nat :: EntryAt(g, j, s) && g.entries[g.list[j]].dirty
  }

  lemma WriterListed(g: State, w: Tid, s: Sector) returns (j: nat)
    requires Shape(g) && Writes(g, w, s) && (forall t | t in g.pc :: !OffList(g.pc[t].ph))
    ensures EntryAt(g, j, s) && g.list[j] == g.pc[w].at
  {
    var e := g.pc[w].at;
    assert e in g.list || Off(g, e);
    j :| 0 <= j < |g.list| && g.list[j] == e;
  }

  /** The flush has gone through when the writer marks its entry. */
  lemma SpoilAfter(g: State, f: Tid, w: Tid, s: Sector) returns (schedule: seq<Choice>, g': State)
    requires Shape(g) && AtEnd(g, f) && Writes(g, w, s)
    requires g.pc[w].ph.WaitEntry? ==> g.entries[g.pc[w].at].owner == None
    ensures g' == Exec(g, schedule) && Calm(g, schedule, s) && AtEnd(g', f) && LeftDirty(g', s)
  {
    assert forall t | t in g.pc && t != f :: !HoldsCache(g.pc[t].ph);
    var j := WriterListed(g, w, s);
    schedule, g' := MarkIt(g, w, s);
    assert EntryAt(g', j, s);
  }

  lemma SpoilWaiting(g: State, f: Tid, w: Tid, s: Sector) returns (schedule: seq<Choice>, g': State)
    requires Shape(g) && AtEnd(g, f) && Writes(g, w, s)
    ensures g' == Exec(g, schedule) && Calm(g, schedule, s) && AtEnd(g', f) && LeftDirty(g', s)
  {
    var e := g.pc[w].at;
    if g.pc[w].ph.WaitEntry? && g.entries[e].owner.Some? {
      var u := g.entries[e].owner.value;
      assert u != f && !HoldsCache(g.pc[u].ph) && u != w;
      var first, g1 := Release(g, u, s);
      var rest;
      rest, g' := SpoilAfter(g1, f, w, s);
      schedule := first + rest;
      ExecThen(g, first, rest, s);
    } else {
      schedule, g' := SpoilAfter(g, f, w, s);
    }
  }

  /** If there is a writer when the flush begins, some schedule leaves its entry
      dirty at the end of the list. */
  lemma Spoil(g: State, f: Tid, w: Tid, s: Sector) returns (schedule: seq<Choice>, g': State)
    requires Shape(g) && f in g.pc && g.pc[f].ph.Sweep? && Writes(g, w, s)
    ensures g' == Exec(g, schedule) && Calm(g, schedule, s) && AtEnd(g', f) && LeftDirty(g', s)
  {
    assert PhaseInv(g, g.pc[f]);
    var first, g1 := SweepAlone(g, f, s);
    assert g1.pc[w] == g.pc[w] && Writes(g1, w, s);
    var rest;
    rest, g' := SpoilWaiting(g1, f, w, s);
    schedule := first + rest;
    ExecThen(g, first, rest, s);
  }

  // --- the exact condition -----------------------------------------------

  /** Every schedule that brings the flush to the end of the list, and does not
      begin another one while there is a writer, has saved `s`. */
  ghost predicate AlwaysSaves(b: Block, g: State, f: Tid, s: Sector) {
    forall schedule | Calm(g, schedule, s) && AtEnd(Exec(g, schedule), f) ::
      Saved(Exec(g, schedule), s, Contents(b, Exec(g, schedule).log, s))
  }

  /** A flush that takes the list lock in `g` saves sector `s`, however the threads
      are interleaved, if and only if no writer has come upon the entry of `s` and
      not marked it yet. */
  lemma FlushIsExact(init: map<Sector, Block>, g: State, f: Tid, s: Sector, req: Request)
    requires Calmly(init, g, s) && s in init
    requires f in g.pc && BeginsFlush(g.pc[f]) && g.cacheLock == None
    ensures Enabled(g, f, req)
    ensures AlwaysSaves(init[s], Next(g, f, req), f, s) <==> NoWriter(g, s)
  {
    CalmInv(init, g, s);
    var g1 := FlushBegins(g, f, s, req);
    if NoWriter(g, s) {
      InvStep(init[s], g, s, f, req);
      InvSaves(init[s], g1, f, s);
    } else {
      var w :| Writes(g, w, s);
      WriterSpoils(init[s], g1, f, w, s);
    }
  }

  lemma FlushBegins(g: State, f: Tid, s: Sector, req: Request) returns (g1: State)
    requires Shape(g) && f in g.pc && BeginsFlush(g.pc[f]) && g.cacheLock == None
    ensures Enabled(g, f, req) && g1 == Next(g, f, req)
    ensures Shape(g1) && f in g1.pc && g1.pc[f].ph.Sweep? && forall w | Writes(g, w, s) :: Writes(g1, w, s)
  {
    ShapeIsSafe(g, f);
    ShapeStep(g, f, req);
    AskMoves(g, f, req);
    g1 := Next(g, f, req);
  }

  lemma InvSaves(b: Block, g: State, f: Tid, s: Sector)
    requires Inv(b, g, s)
    ensures AlwaysSaves(b, g, f, s)
  {
    forall schedule | Calm(g, schedule, s) && AtEnd(Exec(g, schedule), f)
      ensures Saved(Exec(g, schedule), s, Contents(b, Exec(g, schedule).log, s))
    {
      InvRun(b, g, schedule, s);
      EndSaves(Exec(g, schedule), f, s, Contents(b, Exec(g, schedule).log, s));
    }
  }

  lemma WriterSpoils(b: Block, g: State, f: Tid, w: Tid, s: Sector)
    requires Shape(g) && f in g.pc && g.pc[f].ph.Sweep? && Writes(g, w, s)
    ensures !AlwaysSaves(b, g, f, s)
  {
    var schedule, g' := Spoil(g, f, w, s);
    assert LeftDirty(Exec(g, schedule), s) && Calm(g, schedule, s) && AtEnd(Exec(g, schedule), f);
  }

  // --- what a writer can suffer ------------------------------------------

  /** Thread 0 reads and writes, thread 1 flushes. */
  function Two(c: Pc, f: Pc, lock: Option<Tid>, list: seq<nat>, entries: seq<Entry>,
               disk: map<Sector, Block>, log: seq<Event>): State
  {
    State(map[0 := c, 1 := f], lock, list, entries, disk, log)
  }

  function Times(t: Tid, req: Request, n: nat): seq<Choice> {
    seq(n, _ => Choice(t, req))
  }

  function WriteReq(s: Sector, data: Block): Request { Request(s, Write(0, data)) }

  lemma TimesMore(g: State, t: Tid, req: Request, n: nat)
    ensures Exec(g, Times(t, req, n + 1)) == Exec(Take(g, Choice(t, req)), Times(t, req, n))
    ensures Times(t, req, n + 1) == [Choice(t, req)] + Times(t, req, n)
  {
    assert Times(t, req, n + 1)[1..] == Times(t, req, n);
  }

  lemma Then(g: State, g1: State, g2: State, a: seq<Choice>, b: seq<Choice>)
    requires Exec(g, a) == g1 && Exec(g1, b) == g2
    ensures Exec(g, a + b) == g2
  {
    ExecThen(g, a, b, 0);
  }

  /** A writer at byte `n` of a whole sector. */
  function Writing(s: Sector, data: Block, n: nat, blank: bool): Pc {
    Pc(Use, s, Write(0, data), 0, n, blank, [])
  }

  /** `n` bytes of `b`, the rest of `a`. */
  function Mixed(a: Block, b: Block, n: nat): Block
    requires n <= SECTOR_SIZE
  {
    b[..n] + a[n..]
  }

  lemma {:induction false} CopyRun(s: Sector, a: Block, b: Block, n: nat, k: nat, blank: bool, dirty: bool,
                                   f: Pc, lock: Option<Tid>, disk: map<Sector, Block>, log: seq<Event>, req: Request)
    requires n <= k <= SECTOR_SIZE
    ensures Exec(Two(Writing(s, b, n, blank), f, lock, [0], One(s, dirty, Mixed(a, b, n), Some(0)), disk, log),
                 Times(0, req, k - n))
         == Two(Writing(s, b, k, blank), f, lock, [0], One(s, dirty, Mixed(a, b, k), Some(0)), disk, log)
    decreases k - n
  {
    if n < k {
      var g := Two(Writing(s, b, n, blank), f, lock, [0], One(s, dirty, Mixed(a, b, n), Some(0)), disk, log);
      CopyOne(s, a, b, n, blank, dirty, f, lock, disk, log, req);
      TimesMore(g, 0, req, k - n - 1);
      CopyRun(s, a, b, n + 1, k, blank, dirty, f, lock, disk, log, req);
    }
  }

  lemma MixedMore(a: Block, b: Block, n: nat)
    requires n < SECTOR_SIZE
    ensures Mixed(a, b, n)[n := b[n]] == Mixed(a, b, n + 1)
  {
  }

  lemma CopyOne(s: Sector, a: Block, b: Block, n: nat, blank: bool, dirty: bool,
                f: Pc, lock: Option<Tid>, disk: map<Sector, Block>, log: seq<Event>, req: Request)
    requires n < SECTOR_SIZE
    ensures Take(Two(Writing(s, b, n, blank), f, lock, [0], One(s, dirty, Mixed(a, b, n), Some(0)), disk, log),
                 Choice(0, req))
         == Two(Writing(s, b, n + 1, blank), f, lock, [0], One(s, dirty, Mixed(a, b, n + 1), Some(0)), disk, log)
  {
    MixedMore(a, b, n);
    PutByte(s, b, n, blank, dirty, Mixed(a, b, n), f, lock, disk, log, req);
  }

  lemma PutByte(s: Sector, b: Block, n: nat, blank: bool, dirty: bool, x: Block,
                f: Pc, lock: Option<Tid>, disk: map<Sector, Block>, log: seq<Event>, req: Request)
    requires n < SECTOR_SIZE
    ensures Take(Two(Writing(s, b, n, blank), f, lock, [0], One(s, dirty, x, Some(0)), disk, log), Choice(0, req))
         == Two(Writing(s, b, n + 1, blank), f, lock, [0], One(s, dirty, x[n := b[n]], Some(0)), disk, log)
  {
    var g := Two(Writing(s, b, n, blank), f, lock, [0], One(s, dirty, x, Some(0)), disk, log);
    PutStep(g, s, b, n, blank, Entry(s, dirty, x, Some(0)), req);
    PutEntry(s, dirty, x, n, b[n]);
    Put(Writing(s, b, n, blank), f, Writing(s, b, n + 1, blank));
  }

  /** What the step does to the entries and to the threads. */
  lemma PutStep(g: State, s: Sector, b: Block, n: nat, blank: bool, x: Entry, req: Request)
    requires n < SECTOR_SIZE && 0 in g.pc && g.pc[0] == Writing(s, b, n, blank) && g.entries == [x]
    ensures Take(g, Choice(0, req)) ==
      g.(pc := g.pc[0 := Writing(s, b, n + 1, blank)], entries := [x][0 := x.(data := x.data[n := b[n]])])
  {
    PutEnabled(g, req);
    PutUse(g, s, b, n, blank, x);
  }

  lemma PutEnabled(g: State, req: Request)
    requires 0 in g.pc && g.pc[0].ph == Use && EntrySafe(g, g.pc[0])
    ensures Enabled(g, 0, req) && Next(g, 0, req) == UseStep(g, 0, g.pc[0])
  {
  }

  lemma PutUse(g: State, s: Sector, b: Block, n: nat, blank: bool, x: Entry)
    requires n < SECTOR_SIZE && g.entries == [x]
    ensures UseStep(g, 0, Writing(s, b, n, blank)) ==
      g.(pc := g.pc[0 := Writing(s, b, n + 1, blank)], entries := [x][0 := x.(data := x.data[n := b[n]])])
  {
  }

  lemma PutEntry(s: Sector, dirty: bool, x: Block, n: nat, v: Byte)
    requires n < SECTOR_SIZE
    ensures One(s, dirty, x, Some(0))[0 := Entry(s, dirty, x, Some(0)).(data := x[n := v])]
         == One(s, dirty, x[n := v], Some(0))
  {
  }

  lemma Put(c: Pc, f: Pc, p: Pc)
    ensures map[0 := c, 1 := f][0 := p] == map[0 := p, 1 := f]
    ensures map[0 := c, 1 := f][1 := p] == map[0 := c, 1 := p]
  {
  }

  /** One step of a schedule that repeats the same choice. */
  lemma Chain(g: State, g1: State, g2: State, t: Tid, req: Request, n: nat)
    requires Take(g, Choice(t, req)) == g1 && Exec(g1, Times(t, req, n)) == g2
    ensures Exec(g, Times(t, req, n + 1)) == g2
  {
    TimesMore(g, t, req, n);
  }

  function At(ph: Phase, s: Sector, data: Block, blank: bool): Pc {
    Pc(ph, s, Write(0, data), 0, 0, blank, [])
  }

  function Flushing(ph: Phase, at: nat): Pc { Pc(ph, 0, Flush, at, 0, false, []) }

  function One(s: Sector, dirty: bool, data: Block, owner: Option<Tid>): seq<Entry> {
    [Entry(s, dirty, data, owner)]
  }

  /** A writer asks for the list lock and gets it. */
  lemma Ask(s: Sector, a: Block, f: Pc, list: seq<nat>, entries: seq<Entry>, disk: map<Sector, Block>, log: seq<Event>)
    requires s in disk
    ensures Take(Two(Still(), f, None, list, entries, disk, log), Choice(0, WriteReq(s, a)))
         == Two(At(Start, s, a, false), f, None, list, entries, disk, log)
  {
    Put(Still(), f, At(Start, s, a, false));
  }

  lemma Enter(s: Sector, a: Block, f: Pc, list: seq<nat>, entries: seq<Entry>, disk: map<Sector, Block>,
              log: seq<Event>)
    ensures Take(Two(At(Start, s, a, false), f, None, list, entries, disk, log), Choice(0, WriteReq(s, a)))
         == Two(At(Scan, s, a, false), f, Some(0), list, entries, disk, log)
  {
    Put(At(Start, s, a, false), f, At(Scan, s, a, false));
  }

  /** It finds nothing cached and makes an entry. */
  lemma Make(s: Sector, a: Block, disk: map<Sector, Block>)
    ensures Take(Two(At(Scan, s, a, false), Still(), Some(0), [], [], disk, []), Choice(0, WriteReq(s, a)))
         == Two(At(Fill, s, a, false), Still(), Some(0), [], One(0, false, Zeros(), Some(0)), disk, [])
  {
    Put(At(Scan, s, a, false), Still(), At(Fill, s, a, false));
  }

  lemma Load(s: Sector, a: Block, disk: map<Sector, Block>)
    requires s in disk
    ensures Take(Two(At(Fill, s, a, false), Still(), Some(0), [], One(0, false, Zeros(), Some(0)), disk, []),
      Choice(0, WriteReq(s, a)))
         == Two(At(Link, s, a, true), Still(), Some(0), [], One(s, false, Zeros(), Some(0)), disk, [])
  {
    Put(At(Fill, s, a, false), Still(), At(Link, s, a, true));
  }

  lemma Insert(s: Sector, a: Block, disk: map<Sector, Block>)
    ensures Take(Two(At(Link, s, a, true), Still(), Some(0), [], One(s, false, Zeros(), Some(0)), disk, []),
      Choice(0, WriteReq(s, a)))
         == Two(At(Linked, s, a, true), Still(), Some(0), [0], One(s, false, Zeros(), Some(0)), disk, [])
  {
    Put(At(Link, s, a, true), Still(), At(Linked, s, a, true));
  }

  lemma Leave(s: Sector, a: Block, disk: map<Sector, Block>)
    ensures Take(Two(At(Linked, s, a, true), Still(), Some(0), [0], One(s, false, Zeros(), Some(0)), disk, []),
      Choice(0, WriteReq(s, a)))
         == Two(Writing(s, a, 0, true), Still(), None, [0], One(s, false, Zeros(), Some(0)), disk, [])
  {
    Put(At(Linked, s, a, true), Still(), Writing(s, a, 0, true));
  }

  /** Or it finds the entry and takes its lock. */
  lemma Look(s: Sector, a: Block, x: Block, disk: map<Sector, Block>, log: seq<Event>)
    ensures Take(Two(At(Scan, s, a, false), Still(), Some(0), [0], One(s, true, x, None), disk, log),
      Choice(0, WriteReq(s, a)))
         == Two(At(Hit, s, a, false), Still(), Some(0), [0], One(s, true, x, None), disk, log)
  {
    Put(At(Scan, s, a, false), Still(), At(Hit, s, a, false));
  }

  lemma LetGo(s: Sector, a: Block, x: Block, disk: map<Sector, Block>, log: seq<Event>)
    ensures Take(Two(At(Hit, s, a, false), Still(), Some(0), [0], One(s, true, x, None), disk, log),
      Choice(0, WriteReq(s, a)))
         == Two(At(WaitEntry, s, a, false), Still(), None, [0], One(s, true, x, None), disk, log)
  {
    Put(At(Hit, s, a, false), Still(), At(WaitEntry, s, a, false));
  }

  lemma Grab(s: Sector, a: Block, x: Block, disk: map<Sector, Block>, log: seq<Event>)
    ensures Take(Two(At(WaitEntry, s, a, false), Still(), None, [0], One(s, true, x, None), disk, log),
      Choice(0, WriteReq(s, a)))
         == Two(At(Recheck, s, a, false), Still(), None, [0], One(s, true, x, Some(0)), disk, log)
  {
    Put(At(WaitEntry, s, a, false), Still(), At(Recheck, s, a, false));
  }

  lemma Check(s: Sector, a: Block, x: Block, disk: map<Sector, Block>, log: seq<Event>)
    ensures Take(Two(At(Recheck, s, a, false), Still(), None, [0], One(s, true, x, Some(0)), disk, log),
      Choice(0, WriteReq(s, a)))
         == Two(Writing(s, a, 0, false), Still(), None, [0], One(s, true, x, Some(0)), disk, log)
  {
    Put(At(Recheck, s, a, false), Still(), Writing(s, a, 0, false));
  }

  /** The end of a write. */
  lemma Finish(s: Sector, a: Block, blank: bool, dirty: bool, f: Pc, lock: Option<Tid>, disk: map<Sector, Block>,
               log: seq<Event>, req: Request)
    ensures Take(Two(Writing(s, a, SECTOR_SIZE, blank), f, lock, [0], One(s, dirty, a, Some(0)), disk, log),
      Choice(0, req))
         == Two(Writing(s, a, SECTOR_SIZE, blank).(ph := Mark), f, lock, [0], One(s, dirty, a, Some(0)), disk,
           log + [DidWrite(s, 0, a, blank)])
  {
    Put(Writing(s, a, SECTOR_SIZE, blank), f, Writing(s, a, SECTOR_SIZE, blank).(ph := Mark));
  }

  lemma MarkOne(s: Sector, a: Block, blank: bool, dirty: bool, f: Pc, lock: Option<Tid>, disk: map<Sector, Block>,
                log: seq<Event>, req: Request)
    ensures Take(Two(Writing(s, a, SECTOR_SIZE, blank).(ph := Mark), f, lock, [0], One(s, dirty, a, Some(0)), disk,
      log), Choice(0, req))
         == Two(Writing(s, a, SECTOR_SIZE, blank).(ph := Unlock), f, lock, [0], One(s, true, a, Some(0)), disk, log)
  {
    Put(Writing(s, a, SECTOR_SIZE, blank).(ph := Mark), f, Writing(s, a, SECTOR_SIZE, blank).(ph := Unlock));
  }

  lemma Done(s: Sector, a: Block, blank: bool, dirty: bool, f: Pc, lock: Option<Tid>, disk: map<Sector, Block>,
             log: seq<Event>, req: Request)
    ensures Take(Two(Writing(s, a, SECTOR_SIZE, blank).(ph := Unlock), f, lock, [0], One(s, dirty, a, Some(0)), disk,
      log), Choice(0, req))
         == Two(Still(), f, lock, [0], One(s, dirty, a, None), disk, log)
  {
    Put(Writing(s, a, SECTOR_SIZE, blank).(ph := Unlock), f, Still());
  }

  /** The flush of one entry. */
  lemma FlushAsk(s: Sector, c: Pc, dirty: bool, x: Block, o: Option<Tid>, disk: map<Sector, Block>, log: seq<Event>)
    ensures Take(Two(c, Still(), None, [0], One(s, dirty, x, o), disk, log), Choice(1, NOTHING))
         == Two(c, Flushing(Start, 0), None, [0], One(s, dirty, x, o), disk, log)
  {
    Put(c, Still(), Flushing(Start, 0));
  }

  lemma FlushEnter(s: Sector, c: Pc, dirty: bool, x: Block, o: Option<Tid>, disk: map<Sector, Block>, log: seq<Event>)
    ensures Take(Two(c, Flushing(Start, 0), None, [0], One(s, dirty, x, o), disk, log), Choice(1, NOTHING))
         == Two(c, Flushing(Sweep, 0), Some(1), [0], One(s, dirty, x, o), disk, log)
  {
    Put(c, Flushing(Start, 0), Flushing(Sweep, 0));
  }

  lemma FlushLook(s: Sector, c: Pc, x: Block, o: Option<Tid>, disk: map<Sector, Block>, log: seq<Event>)
    ensures Take(Two(c, Flushing(Sweep, 0), Some(1), [0], One(s, true, x, o), disk, log), Choice(1, NOTHING))
         == Two(c, Flushing(Save, 0), Some(1), [0], One(s, true, x, o), disk, log)
  {
    Put(c, Flushing(Sweep, 0), Flushing(Save, 0));
  }

  lemma FlushSave(s: Sector, c: Pc, x: Block, o: Option<Tid>, disk: map<Sector, Block>, log: seq<Event>)
    requires s in disk
    ensures Take(Two(c, Flushing(Save, 0), Some(1), [0], One(s, true, x, o), disk, log), Choice(1, NOTHING))
         == Two(c, Flushing(Clear, 0), Some(1), [0], One(s, true, x, o), disk[s := x], log)
  {
    Put(c, Flushing(Save, 0), Flushing(Clear, 0));
  }

  lemma FlushClear(s: Sector, c: Pc, dirty: bool, x: Block, o: Option<Tid>, disk: map<Sector, Block>, log: seq<Event>)
    ensures Take(Two(c, Flushing(Clear, 0), Some(1), [0], One(s, dirty, x, o), disk, log), Choice(1, NOTHING))
         == Two(c, Flushing(Sweep, 1), Some(1), [0], One(s, false, x, o), disk, log)
  {
    var g := Two(c, Flushing(Clear, 0), Some(1), [0], One(s, dirty, x, o), disk, log);
    assert Next(g, 1, NOTHING) == SweepStep(g, 1, Flushing(Clear, 0));
    Put(c, Flushing(Clear, 0), Flushing(Sweep, 1));
    Cleaned(Entry(s, dirty, x, o));
  }

  lemma Cleaned(x: Entry)
    ensures [x][0 := x.(dirty := false)] == [x.(dirty := false)]
  {
  }

  lemma MissRun(s: Sector, a: Block, disk: map<Sector, Block>)
    requires s in disk
    ensures Exec(Two(Still(), Still(), None, [], [], disk, []), Times(0, WriteReq(s, a), 6))
         == Two(Writing(s, a, 0, true), Still(), None, [0], One(s, false, Zeros(), Some(0)), disk, [])
  {
    var r, w := WriteReq(s, a), Still();
    var x, y := One(0, false, Zeros(), Some(0)), One(s, false, Zeros(), Some(0));
    var g0 := Two(Still(), w, None, [], [], disk, []);
    var g1 := Two(At(Start, s, a, false), w, None, [], [], disk, []);
    var g2 := Two(At(Scan, s, a, false), w, Some(0), [], [], disk, []);
    var g3 := Two(At(Fill, s, a, false), w, Some(0), [], x, disk, []);
    var g4 := Two(At(Link, s, a, true), w, Some(0), [], y, disk, []);
    var g5 := Two(At(Linked, s, a, true), w, Some(0), [0], y, disk, []);
    var g6 := Two(Writing(s, a, 0, true), w, None, [0], y, disk, []);
    Leave(s, a, disk);
    Chain(g5, g6, g6, 0, r, 0);
    Insert(s, a, disk);
    Chain(g4, g5, g6, 0, r, 1);
    Load(s, a, disk);
    Chain(g3, g4, g6, 0, r, 2);
    Make(s, a, disk);
    Chain(g2, g3, g6, 0, r, 3);
    Enter(s, a, w, [], [], disk, []);
    Chain(g1, g2, g6, 0, r, 4);
    Ask(s, a, w, [], [], disk, []);
    Chain(g0, g1, g6, 0, r, 5);
  }

  lemma HitRun(s: Sector, a: Block, x: Block, disk: map<Sector, Block>, log: seq<Event>)
    requires s in disk
    ensures Exec(Two(Still(), Still(), None, [0], One(s, true, x, None), disk, log), Times(0, WriteReq(s, a), 6))
         == Two(Writing(s, a, 0, false), Still(), None, [0], One(s, true, x, Some(0)), disk, log)
  {
    var r, w := WriteReq(s, a), Still();
    var y, z := One(s, true, x, None), One(s, true, x, Some(0));
    var g0 := Two(Still(), w, None, [0], y, disk, log);
    var g1 := Two(At(Start, s, a, false), w, None, [0], y, disk, log);
    var g2 := Two(At(Scan, s, a, false), w, Some(0), [0], y, disk, log);
    var g3 := Two(At(Hit, s, a, false), w, Some(0), [0], y, disk, log);
    var g4 := Two(At(WaitEntry, s, a, false), w, None, [0], y, disk, log);
    var g5 := Two(At(Recheck, s, a, false), w, None, [0], z, disk, log);
    var g6 := Two(Writing(s, a, 0, false), w, None, [0], z, disk, log);
    Check(s, a, x, disk, log);
    Chain(g5, g6, g6, 0, r, 0);
    Grab(s, a, x, disk, log);
    Chain(g4, g5, g6, 0, r, 1);
    LetGo(s, a, x, disk, log);
    Chain(g3, g4, g6, 0, r, 2);
    Look(s, a, x, disk, log);
    Chain(g2, g3, g6, 0, r, 3);
    Enter(s, a, w, [0], y, disk, log);
    Chain(g1, g2, g6, 0, r, 4);
    Ask(s, a, w, [0], y, disk, log);
    Chain(g0, g1, g6, 0, r, 5);
  }

  lemma EndRun(s: Sector, b: Block, blank: bool, dirty: bool, f: Pc, lock: Option<Tid>,
               disk: map<Sector, Block>, log: seq<Event>, req: Request)
    ensures Exec(Two(Writing(s, b, SECTOR_SIZE, blank), f, lock, [0], One(s, dirty, b, Some(0)), disk, log),
                 Times(0, req, 3))
         == Two(Still(), f, lock, [0], One(s, true, b, None), disk, log + [DidWrite(s, 0, b, blank)])
  {
    var log', c := log + [DidWrite(s, 0, b, blank)], Writing(s, b, SECTOR_SIZE, blank);
    var g1 := Two(c, f, lock, [0], One(s, dirty, b, Some(0)), disk, log);
    var g2 := Two(c.(ph := Mark), f, lock, [0], One(s, dirty, b, Some(0)), disk, log');
    var g3 := Two(c.(ph := Unlock), f, lock, [0], One(s, true, b, Some(0)), disk, log');
    var g4 := Two(Still(), f, lock, [0], One(s, true, b, None), disk, log');
    Done(s, b, blank, true, f, lock, disk, log', req);
    Chain(g3, g4, g4, 0, req, 0);
    MarkOne(s, b, blank, dirty, f, lock, disk, log', req);
    Chain(g2, g3, g4, 0, req, 1);
    Finish(s, b, blank, dirty, f, lock, disk, log, req);
    Chain(g1, g2, g4, 0, req, 2);
  }

  /** The rest of a write, from its first byte on. */
  lemma WriteRun(s: Sector, a: Block, b: Block, blank: bool, dirty: bool, f: Pc, lock: Option<Tid>,
                 disk: map<Sector, Block>, log: seq<Event>, req: Request)
    ensures Exec(Two(Writing(s, b, 0, blank), f, lock, [0], One(s, dirty, a, Some(0)), disk, log),
                 Times(0, req, SECTOR_SIZE) + Times(0, req, 3))
         == Two(Still(), f, lock, [0], One(s, true, b, None), disk, log + [DidWrite(s, 0, b, blank)])
  {
    assert Mixed(a, b, 0) == a && Mixed(a, b, SECTOR_SIZE) == b;
    CopyRun(s, a, b, 0, SECTOR_SIZE, blank, dirty, f, lock, disk, log, req);
    EndRun(s, b, blank, dirty, f, lock, disk, log, req);
    Then(Two(Writing(s, b, 0, blank), f, lock, [0], One(s, dirty, a, Some(0)), disk, log),
         Two(Writing(s, b, SECTOR_SIZE, blank), f, lock, [0], One(s, dirty, b, Some(0)), disk, log),
         Two(Still(), f, lock, [0], One(s, true, b, None), disk, log + [DidWrite(s, 0, b, blank)]),
         Times(0, req, SECTOR_SIZE), Times(0, req, 3));
  }

  /** The flush, up to the point between the write and the clearing. */
  lemma FlushRun(s: Sector, c: Pc, x: Block, o: Option<Tid>, disk: map<Sector, Block>, log: seq<Event>)
    requires s in disk
    ensures Exec(Two(c, Still(), None, [0], One(s, true, x, o), disk, log), Times(1, NOTHING, 4))
         == Two(c, Flushing(Clear, 0), Some(1), [0], One(s, true, x, o), disk[s := x], log)
  {
    var y := One(s, true, x, o);
    var g0 := Two(c, Still(), None, [0], y, disk, log);
    var g1 := Two(c, Flushing(Start, 0), None, [0], y, disk, log);
    var g2 := Two(c, Flushing(Sweep, 0), Some(1), [0], y, disk, log);
    var g3 := Two(c, Flushing(Save, 0), Some(1), [0], y, disk, log);
    var g4 := Two(c, Flushing(Clear, 0), Some(1), [0], y, disk[s := x], log);
    FlushSave(s, c, x, o, disk, log);
    Chain(g3, g4, g4, 1, NOTHING, 0);
    FlushLook(s, c, x, o, disk, log);
    Chain(g2, g3, g4, 1, NOTHING, 1);
    FlushEnter(s, c, true, x, o, disk, log);
    Chain(g1, g2, g4, 1, NOTHING, 2);
    FlushAsk(s, c, true, x, o, disk, log);
    Chain(g0, g1, g4, 1, NOTHING, 3);
  }

  /** A whole write of `a` to a sector that is not cached. */
  function FirstWrite(s: Sector, a: Block): seq<Choice> {
    var r := WriteReq(s, a);
    Times(0, r, 6) + (Times(0, r, SECTOR_SIZE) + Times(0, r, 3))
  }

  lemma FirstWriteRun(s: Sector, a: Block, init: map<Sector, Block>)
    requires s in init
    ensures Exec(Init({0, 1}, init), FirstWrite(s, a))
         == Two(Still(), Still(), None, [0], One(s, true, a, None), init, [DidWrite(s, 0, a, true)])
  {
    var r := WriteReq(s, a);
    assert Init({0, 1}, init) == Two(Still(), Still(), None, [], [], init, []);
    MissRun(s, a, init);
    WriteRun(s, Zeros(), a, true, false, Still(), None, init, [], r);
    Then(Two(Still(), Still(), None, [], [], init, []),
         Two(Writing(s, a, 0, true), Still(), None, [0], One(s, false, Zeros(), Some(0)), init, []),
         Two(Still(), Still(), None, [0], One(s, true, a, None), init, [DidWrite(s, 0, a, true)]),
         Times(0, r, 6), Times(0, r, SECTOR_SIZE) + Times(0, r, 3));
  }

  /** A write of `a`, then one of `b` that is stopped after `k` bytes, and then the
      whole flush. */
  function TornSchedule(s: Sector, a: Block, b: Block, k: nat): seq<Choice> {
    FirstWrite(s, a) + (Times(0, WriteReq(s, b), 6) + (Times(0, WriteReq(s, b), k) +
    (Times(1, NOTHING, 4) + Times(1, NOTHING, 1))))
  }

  lemma TornRun(init: map<Sector, Block>, s: Sector, a: Block, b: Block, k: nat)
    requires s in init && k <= SECTOR_SIZE
    ensures Exec(Init({0, 1}, init), TornSchedule(s, a, b, k))
         == Two(Writing(s, b, k, false), Flushing(Sweep, 1), Some(1), [0], One(s, false, Mixed(a, b, k), Some(0)),
                init[s := Mixed(a, b, k)], [DidWrite(s, 0, a, true)])
  {
    var rb, log := WriteReq(s, b), [DidWrite(s, 0, a, true)];
    var c, torn := Writing(s, b, k, false), Mixed(a, b, k);
    var disk := init[s := torn];
    var g0 := Two(Still(), Still(), None, [0], One(s, true, a, None), init, log);
    var g1 := Two(Writing(s, b, 0, false), Still(), None, [0], One(s, true, a, Some(0)), init, log);
    var g2 := Two(c, Still(), None, [0], One(s, true, torn, Some(0)), init, log);
    var g3 := Two(c, Flushing(Clear, 0), Some(1), [0], One(s, true, torn, Some(0)), disk, log);
    var g4 := Two(c, Flushing(Sweep, 1), Some(1), [0], One(s, false, torn, Some(0)), disk, log);
    var s1, s2, s3 := Times(1, NOTHING, 1), Times(1, NOTHING, 4), Times(0, rb, k);
    FlushClear(s, c, true, torn, Some(0), disk, log);
    Chain(g3, g4, g4, 1, NOTHING, 0);
    FlushRun(s, c, torn, Some(0), init, log);
    Then(g2, g3, g4, s2, s1);
    assert Mixed(a, b, 0) == a;
    CopyRun(s, a, b, 0, k, false, true, Still(), None, init, log, rb);
    Then(g1, g2, g4, s3, s2 + s1);
    HitRun(s, b, a, init, log);
    Then(g0, g1, g4, Times(0, rb, 6), s3 + (s2 + s1));
    FirstWriteRun(s, a, init);
    Then(Init({0, 1}, init), g0, g4, FirstWrite(s, a), Times(0, rb, 6) + (s3 + (s2 + s1)));
  }

  /** It leaves `k` bytes of `b` and the rest of `a` on the device, and the entry
      clean. */
  lemma TornFlush(init: map<Sector, Block>, s: Sector, a: Block, b: Block, k: nat)
    requires s in init && k <= SECTOR_SIZE
    ensures var g := Exec(Init({0, 1}, init), TornSchedule(s, a, b, k));
      && AtEnd(g, 1) && EntryAt(g, 0, s) && !g.entries[g.list[0]].dirty
      && g.log == [DidWrite(s, 0, a, true)] && s in g.disk && g.disk[s] == b[..k] + a[k..]
  {
    TornRun(init, s, a, b, k);
  }

  /** A write of `a`, then one of `b` that is stopped before its first byte, the
      flush up to the point between the write and the clearing, the rest of the
      write of `b`, and the rest of the flush. */
  function ForgetSchedule(s: Sector, a: Block, b: Block): seq<Choice> {
    FirstWrite(s, a) + (Times(0, WriteReq(s, b), 6) + (Times(1, NOTHING, 4) +
    ((Times(0, WriteReq(s, b), SECTOR_SIZE) + Times(0, WriteReq(s, b), 3)) + Times(1, NOTHING, 1))))
  }

  lemma ForgetRun(init: map<Sector, Block>, s: Sector, a: Block, b: Block)
    requires s in init
    ensures Exec(Init({0, 1}, init), ForgetSchedule(s, a, b))
         == Two(Still(), Flushing(Sweep, 1), Some(1), [0], One(s, false, b, None), init[s := a],
                [DidWrite(s, 0, a, true)] + [DidWrite(s, 0, b, false)])
  {
    var rb, log := WriteReq(s, b), [DidWrite(s, 0, a, true)];
    var log' := log + [DidWrite(s, 0, b, false)];
    var disk, c := init[s := a], Writing(s, b, 0, false);
    var g0 := Two(Still(), Still(), None, [0], One(s, true, a, None), init, log);
    var g1 := Two(c, Still(), None, [0], One(s, true, a, Some(0)), init, log);
    var g2 := Two(c, Flushing(Clear, 0), Some(1), [0], One(s, true, a, Some(0)), disk, log);
    var g3 := Two(Still(), Flushing(Clear, 0), Some(1), [0], One(s, true, b, None), disk, log');
    var g4 := Two(Still(), Flushing(Sweep, 1), Some(1), [0], One(s, false, b, None), disk, log');
    var s1, s2, s3 := Times(1, NOTHING, 1), Times(0, rb, SECTOR_SIZE) + Times(0, rb, 3), Times(1, NOTHING, 4);
    FlushClear(s, Still(), true, b, None, disk, log');
    Chain(g3, g4, g4, 1, NOTHING, 0);
    WriteRun(s, a, b, false, true, Flushing(Clear, 0), Some(1), disk, log, rb);
    Then(g2, g3, g4, s2, s1);
    FlushRun(s, c, a, Some(0), init, log);
    Then(g1, g2, g4, s3, s2 + s1);
    HitRun(s, b, a, init, log);
    Then(g0, g1, g4, Times(0, rb, 6), s3 + (s2 + s1));
    FirstWriteRun(s, a, init);
    Then(Init({0, 1}, init), g0, g4, FirstWrite(s, a), Times(0, rb, 6) + (s3 + (s2 + s1)));
  }

  /** It leaves `a` on the device and `b` in a clean entry: the next eviction
      forgets a write that has been done. */
  lemma ForgottenWrite(init: map<Sector, Block>, s: Sector, a: Block, b: Block)
    requires s in init
    ensures var g := Exec(Init({0, 1}, init), ForgetSchedule(s, a, b));
      && AtEnd(g, 1) && 0 in g.pc && g.pc[0].ph.Idle? && EntryAt(g, 0, s) && !g.entries[g.list[0]].dirty
      && s in g.disk && g.disk[s] == a && Contents(init[s], g.log, s) == b
  {
    ForgetRun(init, s, a, b);
    ContentsMore(init[s], [DidWrite(s, 0, a, true)], s, DidWrite(s, 0, b, false));
    PatchWhole(Contents(init[s], [DidWrite(s, 0, a, true)], s), b);
  }

  lemma PatchWhole(x: Block, b: Block)
    ensures Patch(x, 0, b) == b
  {
  }
}
