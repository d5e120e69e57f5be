/** When the flush makes a write be forgotten: the exact condition, at the moment
    when it is about to save an entry. */
module CacheLoss {
  import opened Common
  import opened Sectors
  import opened CacheProtocol
  import opened CacheData
  import opened CacheFlush

  // --- what a writer still has to do ---------------------------------------

  /** `b` with the bytes of `data` from number `n` on put at `ofs`. */
  function Rest(b: Block, ofs: nat, data: seq<Byte>, n: nat): Block
    requires ofs + |data| <= SECTOR_SIZE
    decreases |data| - n
  {
    if n >= |data| then b else Rest(b[ofs + n := data[n]], ofs, data, n + 1)
  }

  /** What user `c` of entry `x` makes of its data before it lets go. */
  function Final(c: Pc, x: Entry): Block {
    if c.op.Write? && Fits(c.op) && (c.ph.Use? || ((c.ph.WaitEntry? || c.ph.Recheck?) && x.sec == c.sec))
    then Rest(x.data, c.op.ofs, c.op.data, c.n) else x.data
  }

  lemma {:induction false} RestAt(b: Block, ofs: nat, data: seq<Byte>, n: nat, i: nat)
    requires ofs + |data| <= SECTOR_SIZE && i < ofs + n
    ensures i < SECTOR_SIZE ==> Rest(b, ofs, data, n)[i] == b[i]
    decreases |data| - n
  {
    if n < |data| {
      RestAt(b[ofs + n := data[n]], ofs, data, n + 1, i);
    }
  }

  /** If the remaining bytes change nothing, nor does the next one. */
  lemma RestSame(b: Block, ofs: nat, data: seq<Byte>, n: nat)
    requires ofs + |data| <= SECTOR_SIZE && n < |data| && Rest(b, ofs, data, n) == b
    ensures b[ofs + n := data[n]] == b && Rest(b, ofs, data, n + 1) == b
  {
    RestAt(b[ofs + n := data[n]], ofs, data, n + 1, ofs + n);
  }

  /** No writer that has come upon the entry has a byte to copy that differs. */
  ghost predicate Harmless(g: State, s: Sector) {
    forall w | Writes(g, w, s) :: Final(g.pc[w], g.entries[g.pc[w].at]) == g.entries[g.pc[w].at].data
  }

  // --- what a loss is --------------------------------------------------------

  /** The entry of `s` is clean and in nobody's hands, and differs from the device:
      its eviction forgets a write. */
  ghost predicate Lost(g: State, s: Sector) {
    exists j: nat :: EntryAt(g, j, s) && Stale(g, g.list[j], s)
  }

  predicate Stale(g: State, e: nat, s: Sector)
    requires e < |g.entries|
  {
    var x := g.entries[e];
    !x.dirty && x.owner == None && (s in g.disk ==> g.disk[s] != x.data)
  }

  /** The flush goes on all through the schedule. */
  ghost predicate Meanwhile(g: State, schedule: seq<Choice>, f: Tid)
    decreases |schedule|
  {
    && f in g.pc && Sweeping(g.pc[f].ph)
    && (schedule != [] ==> Meanwhile(Take(g, schedule[0]), schedule[1..], f))
  }

  ghost predicate NeverLost(g: State, f: Tid, s: Sector) {
    forall schedule | Meanwhile(g, schedule, f) :: !Lost(Exec(g, schedule), s)
  }

  // --- the kinds of steps ----------------------------------------------------

  lemma NextUser(g: State, t: Tid, req: Request) returns (g': State)
    requires Enabled(g, t, req) && Using(g.pc[t].ph)
    ensures g' == Next(g, t, req) && UserMove(g, g', t)
  {
    g' := UserStep(g, t, g.pc[t]);
    UserMoves(g, t);
  }

  lemma NextSweep(g: State, t: Tid, req: Request) returns (g': State)
    requires Enabled(g, t, req) && Sweeping(g.pc[t].ph)
    ensures g' == Next(g, t, req) && SweepMove(g, g', t)
  {
    g' := SweepStep(g, t, g.pc[t]);
    SweepMoves(g, t);
  }

  lemma NextAsk(g: State, t: Tid, req: Request) returns (g': State)
    requires Enabled(g, t, req) && Asking(g.pc[t].ph)
    ensures g' == Next(g, t, req) && AskMove(g, g', t, req)
  {
    g' := AskStep(g, t, g.pc[t], req);
    AskMoves(g, t, req);
  }

  lemma NextOther(g: State, t: Tid, req: Request) returns (g': State)
    requires Enabled(g, t, req) && !Using(g.pc[t].ph) && !Sweeping(g.pc[t].ph) && !Asking(g.pc[t].ph)
    ensures g' == Next(g, t, req) && Moved(g, g', t) && !g'.pc[t].ph.Save?
  {
    g' := Next(g, t, req);
  }

  // --- harmless writers ------------------------------------------------------

  /** Entry `e` of `s` holds `b`, nobody is going to change that, and the device has
      it or is about to get it. */
  ghost predicate Quiet(g: State, f: Tid, e: nat, s: Sector, b: Block) {
    && f in g.pc && Sweeping(g.pc[f].ph)
    && e in g.list && e < |g.entries| && g.entries[e].sec == s && g.entries[e].data == b && Harmless(g, s)
    && s in g.disk && (g.disk[s] == b || AboutToSave(g, f, e))
  }

  predicate AboutToSave(g: State, f: Tid, e: nat)
    requires f in g.pc && e < |g.entries|
  {
    g.pc[f].ph.Save? && g.pc[f].at < |g.list| && g.list[g.pc[f].at] == e && g.entries[e].dirty
  }

  /** There is one entry for a sector. */
  lemma OneEntry(g: State, f: Tid, a: nat, e: nat, s: Sector)
    requires Shape(g) && f in g.pc && Sweeping(g.pc[f].ph)
    requires a < |g.entries| && e < |g.entries| && g.entries[a].sec == s && g.entries[e].sec == s
    ensures a == e
  {
    assert g.cacheLock == Some(f);
    assert a in g.list || Off(g, a);
    assert e in g.list || Off(g, e);
    var i :| 0 <= i < |g.list| && g.list[i] == a;
    var j :| 0 <= j < |g.list| && g.list[j] == e;
    assert i == j || i < j || j < i;
  }

  lemma QuietNotLost(g: State, f: Tid, e: nat, s: Sector, b: Block)
    requires Shape(g) && Quiet(g, f, e, s, b)
    ensures !Lost(g, s)
  {
    forall j: nat | EntryAt(g, j, s) ensures !Stale(g, g.list[j], s) {
      OneEntry(g, f, g.list[j], e, s);
    }
  }

  lemma QuietSweep(g: State, g': State, f: Tid, e: nat, s: Sector, b: Block)
    requires Shape(g) && Quiet(g, f, e, s, b) && SweepMove(g, g', f) && Sweeping(g'.pc[f].ph)
    ensures Quiet(g', f, e, s, b)
  {
    assert g.pc[f].at < |g.list|;
    forall w | Writes(g', w, s)
      ensures Final(g'.pc[w], g'.entries[g'.pc[w].at]) == g'.entries[g'.pc[w].at].data
    {
      assert w != f && Writes(g, w, s);
    }
    SweepDisk(g, g', f, e, s);
  }

  /** The flush writes the entry of `s` to the place of `s`, and nothing else. */
  lemma SweepDisk(g: State, g': State, f: Tid, e: nat, s: Sector)
    requires Shape(g) && SweepMove(g, g', f) && g.pc[f].at < |g.list|
    requires e < |g.entries| && g.entries[e].sec == s && s in g.disk
    ensures s in g'.disk && (g'.disk[s] == g.disk[s] || g'.disk[s] == g.entries[e].data)
    ensures AboutToSave(g, f, e) ==> g'.disk[s] == g.entries[e].data
  {
    var a := g.list[g.pc[f].at];
    if g.entries[a].sec == s {
      OneEntry(g, f, a, e, s);
    }
  }

  lemma FinalTurn(c: Pc, c': Pc, x: Entry, x': Entry, t: Tid, s: Sector)
    requires UserTurn(c, c', x, x', t) && OpInv(c) && x.sec == s
    requires Pending(c.ph) && c.op.Write? && c.sec == s ==> Final(c, x) == x.data
    requires c.ph.Use? ==> c.sec == s
    ensures x'.data == x.data && x'.sec == s && (x.dirty ==> x'.dirty)
    ensures Pending(c'.ph) && c'.op.Write? && c'.sec == s ==> Final(c', x') == x'.data
  {
    if c.ph.Use? && c.op.Write? && c.n < |c.op.data| {
      RestSame(x.data, c.op.ofs, c.op.data, c.n);
    }
  }

  /** Entry `e` before and after a step of one of its users, and that user. */
  lemma UserEntry(g: State, g': State, f: Tid, t: Tid, e: nat, s: Sector)
    requires Shape(g) && f in g.pc && Sweeping(g.pc[f].ph) && UserMove(g, g', t) && Harmless(g, s)
    requires e < |g.entries| && g.entries[e].sec == s
    ensures g'.entries[e].data == g.entries[e].data && g'.entries[e].sec == s
    ensures g.entries[e].dirty ==> g'.entries[e].dirty
    ensures Writes(g', t, s) && g'.pc[t].at == e ==> Final(g'.pc[t], g'.entries[e]) == g'.entries[e].data
  {
    var c := g.pc[t];
    assert OpInv(c) && PhaseInv(g, c);
    if c.at == e {
      assert Pending(c.ph) && c.op.Write? && c.sec == s ==> Writes(g, t, s);
      FinalTurn(c, g'.pc[t], g.entries[e], g'.entries[e], t, s);
    }
  }

  lemma UserHarmless(g: State, g': State, f: Tid, t: Tid, e: nat, s: Sector, w: Tid)
    requires Shape(g) && f in g.pc && Sweeping(g.pc[f].ph) && UserMove(g, g', t) && Harmless(g, s) && Shape(g')
    requires t != f && e < |g.entries| && g.entries[e].sec == s && Writes(g', w, s)
    ensures Final(g'.pc[w], g'.entries[g'.pc[w].at]) == g'.entries[g'.pc[w].at].data
  {
    UserEntry(g, g', f, t, e, s);
    OneEntry(g', f, g'.pc[w].at, e, s);
    if w != t {
      assert Writes(g, w, s);
    }
  }

  lemma QuietUser(g: State, g': State, f: Tid, t: Tid, e: nat, s: Sector, b: Block)
    requires Shape(g) && Quiet(g, f, e, s, b) && UserMove(g, g', t) && Shape(g') && t != f
    ensures Quiet(g', f, e, s, b)
  {
    UserEntry(g, g', f, t, e, s);
    forall w | Writes(g', w, s)
      ensures Final(g'.pc[w], g'.entries[g'.pc[w].at]) == g'.entries[g'.pc[w].at].data
    {
      UserHarmless(g, g', f, t, e, s, w);
    }
  }

  lemma QuietAsk(g: State, g': State, f: Tid, t: Tid, req: Request, e: nat, s: Sector, b: Block)
    requires Shape(g) && Quiet(g, f, e, s, b) && AskMove(g, g', t, req) && t != f && g.pc[t].ph.Idle?
    ensures Quiet(g', f, e, s, b)
  {
    forall w | Writes(g', w, s)
      ensures Final(g'.pc[w], g'.entries[g'.pc[w].at]) == g'.entries[g'.pc[w].at].data
    {
      assert w != t && Writes(g, w, s);
    }
  }

  lemma QuietStep(g: State, f: Tid, c: Choice, e: nat, s: Sector, b: Block)
    requires Shape(g) && Quiet(g, f, e, s, b) && f in Take(g, c).pc && Sweeping(Take(g, c).pc[f].ph)
    ensures Shape(Take(g, c)) && Quiet(Take(g, c), f, e, s, b)
  {
    if Enabled(g, c.t, c.req) {
      var ph := g.pc[c.t].ph;
      ShapeStep(g, c.t, c.req);
      if Using(ph) {
        var g' := NextUser(g, c.t, c.req);
        QuietUser(g, g', f, c.t, e, s, b);
      } else if c.t == f {
        var g' := NextSweep(g, c.t, c.req);
        QuietSweep(g, g', f, e, s, b);
      } else {
        assert g.cacheLock == Some(f) && ph.Idle?;
        var g' := NextAsk(g, c.t, c.req);
        QuietAsk(g, g', f, c.t, c.req, e, s, b);
      }
    }
  }

  lemma {:induction false} QuietRun(g: State, schedule: seq<Choice>, f: Tid, e: nat, s: Sector, b: Block)
    requires Shape(g) && Quiet(g, f, e, s, b) && Meanwhile(g, schedule, f)
    ensures !Lost(Exec(g, schedule), s)
    decreases |schedule|
  {
    if schedule == [] {
      QuietNotLost(g, f, e, s, b);
    } else {
      QuietStep(g, f, schedule[0], e, s, b);
      QuietRun(Take(g, schedule[0]), schedule[1..], f, e, s, b);
    }
  }

  // --- a harmful writer ------------------------------------------------------

  lemma {:induction false} MeanwhileThen(g: State, a: seq<Choice>, b: seq<Choice>, f: Tid)
    requires Meanwhile(g, a, f) && Meanwhile(Exec(g, a), b, f)
    ensures Meanwhile(g, a + b, f) && Exec(g, a + b) == Exec(Exec(g, a), b)
    decreases |a|
  {
    if a == [] {
      assert a + b == b;
    } else {
      MeanwhileThen(Take(g, a[0]), a[1..], b, f);
      assert (a + b)[0] == a[0] && (a + b)[1..] == a[1..] + b;
    }
  }

  lemma MeanwhileOne(g: State, c: Choice, f: Tid)
    requires f in g.pc && Sweeping(g.pc[f].ph) && f in Take(g, c).pc && Sweeping(Take(g, c).pc[f].ph)
    ensures Meanwhile(g, [c], f) && Exec(g, [c]) == Take(g, c)
  {
    assert [c][1..] == [];
  }

  /** What a user is going to make of the data does not change while it does so. */
  lemma FinalKept(c: Pc, c': Pc, x: Entry, x': Entry, t: Tid)
    requires UserTurn(c, c', x, x', t) && OpInv(c) && (c.ph.Use? ==> c.sec == x.sec)
    ensures if c.ph.Retry? || c.ph.Unlock? then x'.data == Final(c, x) else Final(c', x') == Final(c, x)
  {
  }

  lemma FinalSame(c: Pc, x: Entry, x': Entry)
    requires x'.sec == x.sec && x'.data == x.data
    ensures Final(c, x') == Final(c, x)
  {
  }

  /** A user that has the entry, or can have it, is run until it lets go. */
  lemma {:induction false} RunOut(g: State, u: Tid, f: Tid, e: nat) returns (schedule: seq<Choice>, g': State)
    requires Shape(g) && f in g.pc && Sweeping(g.pc[f].ph) && u in g.pc && u != f
    requires Using(g.pc[u].ph) && g.pc[u].at == e < |g.entries|
    requires g.pc[u].ph.WaitEntry? ==> g.entries[e].owner == None
    ensures g' == Exec(g, schedule) && Meanwhile(g, schedule, f)
    ensures Shape(g') && UserRun(g, g', u, e) && g'.disk == g.disk && f in g'.pc && g'.pc[f] == g.pc[f]
    ensures g'.entries[e].owner == None && g'.entries[e].data == Final(g.pc[u], g.entries[e])
    decreases UserRank(g.pc[u])
  {
    assert OpInv(g.pc[u]) && PhaseInv(g, g.pc[u]);
    var c, g1 := UserOne(g, u);
    UserOn(g, g1, u);
    FinalKept(g.pc[u], g1.pc[u], g.entries[e], g1.entries[e], u);
    MeanwhileOne(g, c, f);
    schedule, g' := [c], g1;
    if !g.pc[u].ph.Retry? && !g.pc[u].ph.Unlock? {
      var rest;
      rest, g' := RunOut(g1, u, f, e);
      UserRunThen(g, g1, g', u, e);
      MeanwhileThen(g, [c], rest, f);
      schedule := [c] + rest;
    }
  }

  /** Entry `e` is free and holds other data than in `g`; the flush and the device are
      as they were. */
  ghost predicate Changed(g: State, g': State, f: Tid, e: nat) {
    && f in g.pc && f in g'.pc && g'.pc[f] == g.pc[f] && g'.list == g.list && g'.disk == g.disk
    && e < |g.entries| && e < |g'.entries| && g'.entries[e].sec == g.entries[e].sec
    && g'.entries[e].owner == None && g'.entries[e].data != g.entries[e].data
  }

  /** A writer that waits for a user of the entry, or that user, is run so that the
      entry changes. */
  lemma ChangeAfter(g: State, u: Tid, w: Tid, f: Tid, e: nat) returns (schedule: seq<Choice>, g': State)
    requires Shape(g) && f in g.pc && Sweeping(g.pc[f].ph) && u in g.pc && u != f && w in g.pc && w != f && w != u
    requires Using(g.pc[u].ph) && HoldsEntry(g.pc[u].ph) && g.pc[u].at == e < |g.entries|
    requires g.pc[w].ph.WaitEntry? && g.pc[w].at == e && Final(g.pc[w], g.entries[e]) != g.entries[e].data
    ensures g' == Exec(g, schedule) && Meanwhile(g, schedule, f) && Shape(g') && Changed(g, g', f, e)
  {
    var first, g1 := RunOut(g, u, f, e);
    schedule, g' := first, g1;
    if g1.entries[e].data == g.entries[e].data {
      FinalSame(g.pc[w], g.entries[e], g1.entries[e]);
      assert g1.pc[w] == g.pc[w];
      var rest, g2 := RunOut(g1, w, f, e);
      MeanwhileThen(g, first, rest, f);
      ChangedThen(g, g1, g2, f, e);
      schedule, g' := first + rest, g2;
    }
  }

  lemma ChangedThen(g: State, g1: State, g2: State, f: Tid, e: nat)
    requires f in g.pc && f in g1.pc && g1.pc[f] == g.pc[f] && g1.list == g.list && g1.disk == g.disk
    requires e < |g.entries| && e < |g1.entries| && g1.entries[e].sec == g.entries[e].sec
    requires g1.entries[e].data == g.entries[e].data && Changed(g1, g2, f, e)
    ensures Changed(g, g2, f, e)
  {
  }

  /** If a writer has a byte to copy that differs, some schedule changes the entry. */
  lemma Change(g: State, w: Tid, f: Tid, s: Sector) returns (schedule: seq<Choice>, g': State)
    requires Shape(g) && f in g.pc && Sweeping(g.pc[f].ph) && Writes(g, w, s)
    requires Final(g.pc[w], g.entries[g.pc[w].at]) != g.entries[g.pc[w].at].data
    ensures g' == Exec(g, schedule) && Meanwhile(g, schedule, f) && Shape(g') && Changed(g, g', f, g.pc[w].at)
  {
    var e := g.pc[w].at;
    assert g.cacheLock == Some(f) && w != f && Using(g.pc[w].ph);
    if g.pc[w].ph.WaitEntry? && g.entries[e].owner.Some? {
      var u := g.entries[e].owner.value;
      assert u != f && u != w && Using(g.pc[u].ph);
      schedule, g' := ChangeAfter(g, u, w, f, e);
    } else {
      schedule, g' := RunOut(g, w, f, e);
    }
  }

  /** The flush saves the entry, and when the writer is done clears its mark. */
  lemma Lose(g: State, w: Tid, f: Tid, s: Sector) returns (schedule: seq<Choice>)
    requires Shape(g) && f in g.pc && g.pc[f].ph.Save? && EntryAt(g, g.pc[f].at, s) && Writes(g, w, s)
    requires Final(g.pc[w], g.entries[g.pc[w].at]) != g.entries[g.pc[w].at].data
    ensures Meanwhile(g, schedule, f) && Lost(Exec(g, schedule), s)
  {
    var e := g.list[g.pc[f].at];
    OneEntry(g, f, g.pc[w].at, e, s);
    var c, g1 := SweepOne(g, f);
    SaveStep(g, g1, f, e, s);
    MeanwhileOne(g, c, f);
    assert Writes(g1, w, s);
    var rest, g2 := Change(g1, w, f, s);
    MeanwhileThen(g, [c], rest, f);
    var c2, g3 := SweepOne(g2, f);
    ClearStep(g2, g3, f, e, s);
    MeanwhileOne(g2, c2, f);
    MeanwhileThen(g, [c] + rest, [c2], f);
    schedule := [c] + rest + [c2];
  }

  lemma SaveStep(g: State, g': State, f: Tid, e: nat, s: Sector)
    requires f in g.pc && g.pc[f].ph.Save? && EntryAt(g, g.pc[f].at, s) && e == g.list[g.pc[f].at]
    requires SweepMove(g, g', f)
    ensures g'.entries == g.entries && g'.list == g.list && Moved(g, g', f) && g'.pc[f] == g.pc[f].(ph := Clear)
    ensures s in g'.disk && g'.disk[s] == g.entries[e].data
  {
  }

  lemma ClearStep(g: State, g': State, f: Tid, e: nat, s: Sector)
    requires f in g.pc && g.pc[f].ph.Clear? && EntryAt(g, g.pc[f].at, s) && e == g.list[g.pc[f].at]
    requires g.entries[e].owner == None && s in g.disk && g.disk[s] != g.entries[e].data
    requires SweepMove(g, g', f)
    ensures Lost(g', s)
  {
    assert EntryAt(g', g.pc[f].at, s) && Stale(g', g'.list[g.pc[f].at], s);
  }

  // --- the exact condition -----------------------------------------------------

  /** An entry that a flush is about to save is marked dirty. */
  ghost predicate SaveDirty(g: State) {
    forall t | t in g.pc && g.pc[t].ph.Save? && g.pc[t].at < |g.list| && g.list[g.pc[t].at] < |g.entries| ::
      g.entries[g.list[g.pc[t].at]].dirty
  }

  lemma SaveDirtyStep(g: State, c: Choice)
    requires Shape(g) && SaveDirty(g)
    ensures SaveDirty(Take(g, c))
  {
    if Enabled(g, c.t, c.req) {
      var ph := g.pc[c.t].ph;
      if Using(ph) {
        var g' := NextUser(g, c.t, c.req);
        UserDirty(g, g', c.t);
      } else if Sweeping(ph) {
        var g' := NextSweep(g, c.t, c.req);
        SweepDirty(g, g', c.t);
      } else if Asking(ph) {
        var g' := NextAsk(g, c.t, c.req);
        AskDirty(g, g', c.t, c.req);
      } else {
        var g' := NextOther(g, c.t, c.req);
        OtherDirty(g, g', c.t);
      }
    }
  }

  lemma UserDirty(g: State, g': State, t: Tid)
    requires SaveDirty(g) && UserMove(g, g', t)
    ensures SaveDirty(g')
  {
    assert forall e | 0 <= e < |g.entries| :: g.entries[e].dirty ==> g'.entries[e].dirty;
  }

  lemma SweepDirty(g: State, g': State, t: Tid)
    requires CacheLockInv(g) && SaveDirty(g) && SweepMove(g, g', t)
    ensures SaveDirty(g')
  {
    assert forall u | u in g.pc && u != t :: !g.pc[u].ph.Save?;
  }

  lemma AskDirty(g: State, g': State, t: Tid, req: Request)
    requires SaveDirty(g) && AskMove(g, g', t, req)
    ensures SaveDirty(g')
  {
  }

  /** Nobody else holds the list lock. */
  lemma OtherDirty(g: State, g': State, t: Tid)
    requires CacheLockInv(g) && Moved(g, g', t) && HoldsCache(g.pc[t].ph) && !g'.pc[t].ph.Save?
    ensures SaveDirty(g')
  {
    assert forall u | u in g.pc && u != t :: !g.pc[u].ph.Save?;
  }

  lemma {:induction false} SaveDirtyRun(g: State, schedule: seq<Choice>)
    requires Shape(g) && SaveDirty(g)
    ensures SaveDirty(Exec(g, schedule))
    decreases |schedule|
  {
    if schedule != [] {
      SaveDirtyStep(g, schedule[0]);
      if Enabled(g, schedule[0].t, schedule[0].req) {
        ShapeStep(g, schedule[0].t, schedule[0].req);
      }
      SaveDirtyRun(Take(g, schedule[0]), schedule[1..]);
    }
  }

  lemma ReachableDirty(init: map<Sector, Block>, g: State)
    requires Reachable(init, g)
    ensures SaveDirty(g)
  {
    var threads, schedule :| g == Exec(Init(threads, init), schedule);
    SaveDirtyRun(Init(threads, init), schedule);
  }

  /** From the moment at which a flush has found the entry of `s` dirty, some schedule
      makes it forget a write if and only if there is a writer that has come upon the
      entry and has a byte to copy that differs from what is there. */
  lemma LossIsExact(init: map<Sector, Block>, g: State, f: Tid, s: Sector)
    requires Reachable(init, g) && f in g.pc && g.pc[f].ph.Save? && EntryAt(g, g.pc[f].at, s)
    ensures NeverLost(g, f, s) <==> Harmless(g, s)
  {
    ReachableShape(init, g);
    var e := g.list[g.pc[f].at];
    if Harmless(g, s) {
      ReachableDirty(init, g);
      assert Quiet(g, f, e, s, g.entries[e].data);
      forall schedule | Meanwhile(g, schedule, f) ensures !Lost(Exec(g, schedule), s) {
        QuietRun(g, schedule, f, e, s, g.entries[e].data);
      }
    } else {
      var w :| Writes(g, w, s) && Final(g.pc[w], g.entries[g.pc[w].at]) != g.entries[g.pc[w].at].data;
      var schedule := Lose(g, w, f, s);
    }
  }
}
