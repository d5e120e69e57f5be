/** What a thread that nobody disturbs does: a read or a write through the cache, or
    a flush, is done once and comes to its end. */
module CacheAlone {
  import opened Common
  import opened Sectors
  import opened CacheProtocol
  import opened CacheData
  import opened CacheFlush
  import opened CacheLoss

  /** Nobody but `t` holds a lock. */
  ghost predicate Undisturbed(g: State, t: Tid) {
    && t in g.pc && (g.cacheLock == None || g.cacheLock == Some(t))
    && forall e | 0 <= e < |g.entries| :: g.entries[e].owner == None || g.entries[e].owner == Some(t)
  }

  /** What `t` is doing for request `req`; `miss` tells that the sector was not on the
      list. */
  ghost predicate OnItsWay(g: State, c: Pc, req: Request, miss: bool) {
    && c.sec == req.sec && c.op == req.op && !c.op.Flush?
    && match c.ph
       case Start => miss <==> Absent(g, c.sec)
       case Scan => miss <==> Absent(g, c.sec)
       case Hit => !miss && c.at < |g.entries| && g.entries[c.at].sec == c.sec && !c.blank
       case WaitEntry => !miss && c.at < |g.entries| && g.entries[c.at].sec == c.sec && !c.blank
       case Recheck => !miss && c.at < |g.entries| && g.entries[c.at].sec == c.sec && !c.blank
       case WaitVictim => miss
       case Evict => miss
       case Fill => miss
       case Link => miss && c.blank == c.op.Write?
       case Linked => miss && c.blank == c.op.Write?
       case Use => c.blank == (miss && c.op.Write?)
       case Mark => true
       case Unlock => true
       case _ => false
  }

  /** The one event that `req` leaves in the log. */
  predicate EventFor(e: Event, req: Request, miss: bool) {
    match req.op
    case Read(ofs, size) => e.DidRead? && e.sec == req.sec && e.ofs == ofs && |e.data| == size
    case Write(ofs, data) => e == DidWrite(req.sec, ofs, data, miss)
    case Flush => false
  }

  predicate LogFor(log: seq<Event>, before: seq<Event>, ph: Phase, req: Request, miss: bool) {
    if ph.Mark? || ph.Unlock? || ph.Idle?
    then |log| == |before| + 1 && log[..|before|] == before && EventFor(log[|before|], req, miss)
    else log == before
  }

  /** How far it is from the end. */
  function Far(c: Pc, len: nat): nat {
    match c.ph
    case Start => Size(c.op) + len + 13
    case Scan => Size(c.op) + 12 + (if c.at <= len then len - c.at else 0)
    case Hit => Size(c.op) + 6
    case WaitEntry => Size(c.op) + 5
    case Recheck => Size(c.op) + 4
    case WaitVictim => Size(c.op) + 8
    case Evict => Size(c.op) + 7
    case Fill => Size(c.op) + 6
    case Link => Size(c.op) + 5
    case Linked => Size(c.op) + 4
    case Use => 3 + (if c.n <= Size(c.op) then Size(c.op) - c.n else 0)
    case Mark => 2
    case Unlock => 1
    case _ => 0
  }

  /** All of it, for the thread at `c` in `g`. */
  ghost predicate Going(g: State, t: Tid, req: Request, miss: bool, before: seq<Event>) {
    Undisturbed(g, t) && OnItsWay(g, g.pc[t], req, miss) && LogFor(g.log, before, g.pc[t].ph, req, miss)
  }

  /** Every step of it is possible. */
  lemma CanGo(g: State, t: Tid, req: Request)
    requires Shape(g) && Undisturbed(g, t) && !g.pc[t].ph.Idle?
    ensures Enabled(g, t, req)
  {
    ShapeIsSafe(g, t);
    assert g.cacheLock == Some(t) <==> HoldsCache(g.pc[t].ph);
    assert forall e | 0 <= e < |g.entries| && g.entries[e].owner == Some(t) :: HoldsEntry(g.pc[t].ph);
  }

  // --- the steps -----------------------------------------------------------

  lemma AskGoes(g: State, g': State, t: Tid, req: Request, miss: bool, before: seq<Event>)
    requires Shape(g) && Going(g, t, req, miss, before) && AskMove(g, g', t, req) && !g.pc[t].ph.Idle?
    ensures Going(g', t, req, miss, before) && Far(g'.pc[t], |g'.list|) < Far(g.pc[t], |g.list|)
  {
    assert OpInv(g.pc[t]);
  }

  lemma UserGoes(g: State, g': State, t: Tid, req: Request, miss: bool, before: seq<Event>)
    requires t in g.pc && OpInv(g.pc[t]) && Going(g, t, req, miss, before) && UserMove(g, g', t) && LogMove(g, g', t)
    ensures Undisturbed(g', t)
    ensures g'.pc[t] == Still() || OnItsWay(g', g'.pc[t], req, miss)
    ensures LogFor(g'.log, before, g'.pc[t].ph, req, miss) && Far(g'.pc[t], |g'.list|) < Far(g.pc[t], |g.list|)
  {
  }

  /** What a user's step does to the log. */
  ghost predicate LogMove(g: State, g': State, t: Tid)
    requires t in g.pc
  {
    var c := g.pc[t];
    g'.log ==
      if c.ph.Use? && c.n >= Size(c.op) then
        g.log + [if c.op.Write? then DidWrite(c.sec, c.op.ofs, c.op.data, c.blank)
                 else if c.op.Read? then DidRead(c.sec, c.op.ofs, c.buf) else DidRead(0, 0, [])]
      else g.log
  }

  lemma LogMoves(g: State, t: Tid, req: Request)
    requires Enabled(g, t, req) && Using(g.pc[t].ph) && OpInv(g.pc[t])
    ensures LogMove(g, Next(g, t, req), t)
  {
  }

  /** What the scan finds is what the request is marked with. */
  lemma ScanTells(g: State, c: Pc, req: Request, miss: bool)
    requires c.ph.Scan? && ScanSafe(g, c) && PhaseInv(g, c) && OnItsWay(g, c, req, miss)
    ensures c.at < |g.list| && g.entries[g.list[c.at]].sec == c.sec ==> !miss
    ensures c.at >= |g.list| ==> miss
  {
    if c.at < |g.list| && g.entries[g.list[c.at]].sec == c.sec {
      assert !Absent(g, c.sec);
    }
  }

  lemma ScanGoes(g: State, g': State, t: Tid, req: Request, miss: bool, before: seq<Event>)
    requires Going(g, t, req, miss, before) && g.pc[t].ph.Scan? && ScanSafe(g, g.pc[t]) && g' == ScanStep(g, t, g.pc[t])
    requires g.pc[t].at < |g.list| && g.entries[g.list[g.pc[t].at]].sec == g.pc[t].sec ==> !miss && !g.pc[t].blank
    requires g.pc[t].at >= |g.list| ==> miss
    ensures Going(g', t, req, miss, before) && Far(g'.pc[t], |g'.list|) < Far(g.pc[t], |g.list|)
  {
    if g.pc[t].at < |g.list| {
      assert Absent(g', req.sec) == Absent(g, req.sec);
    }
  }

  lemma ReuseGoes(g: State, g': State, t: Tid, req: Request, miss: bool, before: seq<Event>)
    requires t in g.pc && EntrySafe(g, g.pc[t]) && OpInv(g.pc[t]) && Going(g, t, req, miss, before)
    requires Reusing(g.pc[t].ph) && g' == ReuseStep(g, t, g.pc[t])
    ensures Going(g', t, req, miss, before) && Far(g'.pc[t], |g'.list|) < Far(g.pc[t], |g.list|)
  {
  }

  /** A step brings the thread nearer to its end, or to it. */
  lemma GoOne(g: State, t: Tid, req: Request, miss: bool, before: seq<Event>) returns (g': State)
    requires Shape(g) && Going(g, t, req, miss, before)
    ensures g' == Take(g, Choice(t, req)) && Shape(g') && Undisturbed(g', t)
    ensures LogFor(g'.log, before, g'.pc[t].ph, req, miss) && Far(g'.pc[t], |g'.list|) < Far(g.pc[t], |g.list|)
    ensures g'.pc[t] == Still() || OnItsWay(g', g'.pc[t], req, miss)
  {
    CanGo(g, t, req);
    ShapeStep(g, t, req);
    assert OpInv(g.pc[t]) && PhaseInv(g, g.pc[t]);
    var ph := g.pc[t].ph;
    if Using(ph) {
      g' := NextUser(g, t, req);
      LogMoves(g, t, req);
      UserGoes(g, g', t, req, miss, before);
    } else if Reusing(ph) {
      g' := Next(g, t, req);
      ReuseGoes(g, g', t, req, miss, before);
    } else if Asking(ph) {
      g' := NextAsk(g, t, req);
      AskGoes(g, g', t, req, miss, before);
    } else {
      g' := Next(g, t, req);
      ScanTells(g, g.pc[t], req, miss);
      ScanGoes(g, g', t, req, miss, before);
    }
  }

  lemma {:induction false} GoOn(g: State, t: Tid, req: Request, miss: bool, before: seq<Event>)
    returns (n: nat, g': State)
    requires Shape(g) && Going(g, t, req, miss, before)
    ensures g' == Exec(g, Times(t, req, n)) && Shape(g') && Undisturbed(g', t) && g'.pc[t] == Still()
    ensures LogFor(g'.log, before, Idle, req, miss)
    decreases Far(g.pc[t], |g.list|)
  {
    var g1 := GoOne(g, t, req, miss, before);
    if g1.pc[t] == Still() {
      n, g' := 0, g1;
      assert Times(t, req, 0) == [];
    } else {
      n, g' := GoOn(g1, t, req, miss, before);
    }
    TimesMore(g, t, req, n);
    n := n + 1;
  }

  /** The request is made. */
  lemma AskedFor(g: State, t: Tid, req: Request, miss: bool) returns (g1: State)
    requires Shape(g) && Undisturbed(g, t) && g.pc[t].ph.Idle? && !req.op.Flush? && Proper(g, req)
    requires miss == Absent(g, req.sec)
    ensures g1 == Take(g, Choice(t, req)) && Shape(g1) && Going(g1, t, req, miss, g.log)
  {
    ShapeIsSafe(g, t);
    ShapeStep(g, t, req);
    g1 := NextAsk(g, t, req);
    assert Absent(g1, req.sec) == miss;
  }

  /** A read or a write that nobody disturbs comes to its end and has been done
      exactly once: a write with its data, from zeros if the sector was not cached, and
      a read of as many bytes as it asked for. */
  lemma DoneOnce(init: map<Sector, Block>, g: State, t: Tid, req: Request) returns (n: nat)
    requires Reachable(init, g) && Undisturbed(g, t) && g.pc[t].ph.Idle? && !req.op.Flush? && Proper(g, req)
    ensures var g' := Exec(g, Times(t, req, n));
      && t in g'.pc && g'.pc[t].ph.Idle? && g'.cacheLock == None
      && LogFor(g'.log, g.log, Idle, req, Absent(g, req.sec))
  {
    ReachableShape(init, g);
    var miss := Absent(g, req.sec);
    var g1 := AskedFor(g, t, req, miss);
    var m, g' := GoOn(g1, t, req, miss, g.log);
    TimesMore(g, t, req, m);
    n := m + 1;
    assert g'.cacheLock == Some(t) <==> HoldsCache(g'.pc[t].ph);
  }

  // --- the flush -------------------------------------------------------------

  lemma CalmThen(init: map<Sector, Block>, g: State, schedule: seq<Choice>, s: Sector)
    requires Calmly(init, g, s) && Calm(g, schedule, s)
    ensures Calmly(init, Exec(g, schedule), s)
  {
    var threads, first :| g == Exec(Init(threads, init), first) && Calm(Init(threads, init), first, s);
    ExecThen(Init(threads, init), first, schedule, s);
  }

  lemma SweepLog(g: State, g': State, f: Tid)
    requires f in g.pc && SweepMove(g, g', f) && g.pc[f].at >= |g.list|
    ensures g'.pc[f] == Still() && g'.log == g.log && g'.disk == g.disk && g'.entries == g.entries && g'.list == g.list
  {
  }

  lemma StillNoWriter(g: State, g': State, t: Tid, req: Request, s: Sector)
    requires AskMove(g, g', t, req) && g.pc[t].ph.Idle? && req.op.Flush? && NoWriter(g, s)
    ensures NoWriter(g', s)
  {
    assert forall u | Writes(g', u, s) :: Writes(g, u, s);
  }

  lemma TakenOnce(g: State, c: Choice, s: Sector)
    requires Enabled(g, c.t, c.req) && BeginsFlush(g.pc[c.t]) ==> NoWriter(g, s)
    ensures Exec(g, [c]) == Take(g, c) && Calm(g, [c], s)
  {
    ExecMore(g, c, [], s);
    assert [c] + [] == [c];
  }

  /** A flush asks for the list lock. */
  lemma FlushAsks(g: State, t: Tid, s: Sector, req: Request) returns (g1: State)
    requires Shape(g) && t in g.pc && g.pc[t].ph.Idle? && req.op.Flush? && g.entries != [] && NoWriter(g, s)
    ensures g1 == Exec(g, [Choice(t, req)]) && Calm(g, [Choice(t, req)], s)
    ensures Shape(g1) && t in g1.pc && g1.pc[t].ph.Start? && g1.pc[t].op.Flush? && g1.log == g.log
    ensures g1.cacheLock == g.cacheLock && NoWriter(g1, s)
  {
    ShapeIsSafe(g, t);
    ShapeStep(g, t, req);
    g1 := NextAsk(g, t, req);
    StillNoWriter(g, g1, t, req, s);
    TakenOnce(g, Choice(t, req), s);
  }

  /** A flush that has asked for the list lock gets it when it is free. */
  lemma FlushSweeps(g: State, t: Tid, s: Sector, req: Request) returns (g1: State)
    requires Shape(g) && t in g.pc && g.pc[t].ph.Start? && g.pc[t].op.Flush? && g.cacheLock == None && NoWriter(g, s)
    ensures g1 == Exec(g, [Choice(t, req)]) && Calm(g, [Choice(t, req)], s)
    ensures Shape(g1) && t in g1.pc && g1.pc[t].ph.Sweep? && g1.pc[t].at <= |g1.list| && g1.log == g.log
  {
    ShapeIsSafe(g, t);
    ShapeStep(g, t, req);
    g1 := NextAsk(g, t, req);
    TakenOnce(g, Choice(t, req), s);
  }

  lemma FlushStarts(g: State, t: Tid, s: Sector, req: Request) returns (start: seq<Choice>, g2: State)
    requires Shape(g) && t in g.pc && g.pc[t].ph.Idle? && g.cacheLock == None && NoWriter(g, s)
    requires req.op.Flush? && g.entries != []
    ensures g2 == Exec(g, start) && Calm(g, start, s)
    ensures Shape(g2) && t in g2.pc && g2.pc[t].ph.Sweep? && g2.pc[t].at <= |g2.list| && g2.log == g.log
  {
    var g1 := FlushAsks(g, t, s, req);
    g2 := FlushSweeps(g1, t, s, req);
    start := [Choice(t, req)] + [Choice(t, req)];
    ExecThen(g, [Choice(t, req)], [Choice(t, req)], s);
  }

  lemma FlushEnds(g: State, t: Tid, s: Sector, b: Block) returns (last: seq<Choice>)
    requires Shape(g) && t in g.pc && g.pc[t].ph.Sweep? && g.pc[t].at >= |g.list| && Saved(g, s, b)
    ensures Calm(g, last, s)
    ensures var g' := Exec(g, last); t in g'.pc && g'.pc[t].ph.Idle? && g'.log == g.log && Saved(g', s, b)
  {
    ShapeIsSafe(g, t);
    var g1 := NextSweep(g, t, NOTHING);
    SweepLog(g, g1, t);
    last := [Choice(t, NOTHING)];
    TakenOnce(g, Choice(t, NOTHING), s);
    assert forall j: nat :: EntryAt(g1, j, s) <==> EntryAt(g, j, s);
  }

  /** A flush that nobody disturbs comes to its end, reads and writes nothing for
      anybody, and leaves the sector as last written on the device and clean. */
  lemma FlushDone(init: map<Sector, Block>, g: State, t: Tid, s: Sector, req: Request) returns (schedule: seq<Choice>)
    requires Calmly(init, g, s) && s in init && NoWriter(g, s) && req.op.Flush? && g.entries != []
    requires t in g.pc && g.pc[t].ph.Idle? && g.cacheLock == None
    ensures var g' := Exec(g, schedule);
      && t in g'.pc && g'.pc[t].ph.Idle? && g'.log == g.log && Saved(g', s, Contents(init[s], g.log, s))
  {
    CalmInv(init, g, s);
    var start, g2 := FlushStarts(g, t, s, req);
    var sweep, g3 := SweepAlone(g2, t, s);
    ExecThen(g, start, sweep, s);
    CalmThen(init, g, start + sweep, s);
    FlushSaves(init, g3, s, t);
    var last := FlushEnds(g3, t, s, Contents(init[s], g3.log, s));
    ExecThen(g, start + sweep, last, s);
    schedule := start + sweep + last;
  }
}
