/** What the sector cache stores: every read returns the last write, and what the
    flush leaves on the device, for one sector at a time and under every
    interleaving. */
module CacheData {
  import opened Common
  import opened Sectors
  import opened CacheProtocol

  // --- one sector --------------------------------------------------------

  /** `b` with the bytes of `data` put at offset `ofs`. */
  function Patch(b: Block, ofs: nat, data: seq<Byte>): Block {
    if ofs + |data| <= SECTOR_SIZE then Overlay(b, data, ofs) else b
  }

  /** What sector `s` holds after the logged writes, if it held `b` before. A write
      that made a new entry for the sector started from zeros. */
  function Contents(b: Block, log: seq<Event>, s: Sector): Block {
    if log == [] then b
    else
      var before, last := Contents(b, log[..|log| - 1], s), log[|log| - 1];
      if last.DidWrite? && last.sec == s
      then Patch(if last.blank then Zeros() else before, last.ofs, last.data)
      else before
  }

  /** Every logged read of `s` returned what the sector held at that point. */
  ghost predicate Consistent(b: Block, log: seq<Event>, s: Sector) {
    forall i | 0 <= i < |log| && log[i].DidRead? && log[i].sec == s :: ReadRight(Contents(b, log[..i], s), log[i])
  }

  predicate ReadRight(cur: Block, ev: Event) {
    ev.ofs + |ev.data| <= SECTOR_SIZE && ev.data == cur[ev.ofs..ev.ofs + |ev.data|]
  }

  ghost predicate OwnerAt(g: State, e: nat, ph: Phase)
    requires e < |g.entries|
  {
    && g.entries[e].owner.Some?
    && g.entries[e].owner.value in g.pc
    && g.pc[g.entries[e].owner.value].ph == ph
  }

  /** Entry `e` stands for sector `s`: it is on the list, or it has just been taken
      off and its contents are not on the device yet. */
  ghost predicate Stands(g: State, e: nat, s: Sector) {
    e < |g.entries| && g.entries[e].sec == s && (e in g.list || OwnerAt(g, e, Evict))
  }

  /** A writer has the entry and has not copied all of its data in yet. */
  ghost predicate Copying(g: State, e: nat)
    requires e < |g.entries|
  {
    && (OwnerAt(g, e, Linked) || OwnerAt(g, e, Use))
    && g.pc[g.entries[e].owner.value].op.Write?
  }

  /** What writer `c` has made of contents `cur` so far. */
  function PartCopied(cur: Block, c: Pc): Block
    requires c.op.Write? && c.n <= |c.op.data|
  {
    Patch(if c.blank then Zeros() else cur, c.op.ofs, c.op.data[..c.n])
  }

  /** The entry holds the current contents, or as much of the next as has been
      copied; and if it is not marked dirty the device holds the current ones. */
  ghost predicate EntryData(g: State, e: nat, cur: Block)
    requires e < |g.entries|
  {
    var x := g.entries[e];
    && (if Copying(g, e) then
          var c := g.pc[x.owner.value]; c.n <= |c.op.data| && x.data == PartCopied(cur, c)
        else x.data == cur)
    && (!OwnerAt(g, e, Mark) && !x.dirty ==> x.sec in g.disk && g.disk[x.sec] == cur)
  }

  /** Sector `s` holds `cur`: in the entry that stands for it, or on the device. */
  ghost predicate SectorInv(g: State, s: Sector, cur: Block) {
    && s in g.disk
    && (forall e | 0 <= e < |g.entries| && Stands(g, e, s) :: EntryData(g, e, cur))
    && (g.disk[s] == cur || exists e :: Stands(g, e, s))
  }

  ghost predicate Loaded(g: State, c: Pc, cur: Block)
    requires c.at < |g.entries|
  {
    var x := g.entries[c.at];
    && c.sec in g.disk && g.disk[c.sec] == cur && !x.dirty
    && c.blank == c.op.Write? && x.data == if c.blank then Zeros() else cur
  }

  /** A sector that has been loaded is current on the device. */
  ghost predicate LoadInv(g: State, s: Sector, cur: Block) {
    forall t | t in g.pc && g.pc[t].ph.Link? && g.pc[t].sec == s && g.pc[t].at < |g.entries| :: Loaded(g, g.pc[t], cur)
  }

  /** Past its hit or miss, and not done with marking the entry. */
  predicate Pending(ph: Phase) { ph.WaitEntry? || ph.Recheck? || ph.Linked? || ph.Use? || ph.Mark? }

  /** Thread `u` has come upon the entry of `s` and is going to write to it. */
  ghost predicate Writes(g: State, u: Tid, s: Sector) {
    && u in g.pc && Pending(g.pc[u].ph) && g.pc[u].op.Write? && g.pc[u].sec == s
    && g.pc[u].at < |g.entries| && g.entries[g.pc[u].at].sec == s
  }

  ghost predicate NoWriter(g: State, s: Sector) {
    forall u :: !Writes(g, u, s)
  }

  /** The entry at list position `j` is that of `s`. */
  ghost predicate EntryAt(g: State, j: nat, s: Sector) {
    j < |g.list| && g.list[j] < |g.entries| && g.entries[g.list[j]].sec == s
  }

  /** What the flush has done with `s` when it is at `c`. */
  ghost predicate Swept(g: State, c: Pc, s: Sector, cur: Block) {
    && NoWriter(g, s)
    && (forall j | 0 <= j < c.at && EntryAt(g, j, s) :: !g.entries[g.list[j]].dirty)
    && (c.ph.Clear? && EntryAt(g, c.at, s) ==> s in g.disk && g.disk[s] == cur)
  }

  ghost predicate SweepInv(g: State, s: Sector, cur: Block) {
    forall t | t in g.pc && Sweeping(g.pc[t].ph) :: Swept(g, g.pc[t], s, cur)
  }

  /** A reader's buffer holds the first bytes that it wants. */
  predicate BufOk(c: Pc, x: Entry) {
    && c.op.Read? && c.n == |c.buf| && c.op.ofs + c.n <= SECTOR_SIZE
    && c.buf == x.data[c.op.ofs..c.op.ofs + c.n]
  }

  ghost predicate BufInv(g: State) {
    forall t | t in g.pc && g.pc[t].ph.Use? && g.pc[t].op.Read? && g.pc[t].at < |g.entries| ::
      BufOk(g.pc[t], g.entries[g.pc[t].at])
  }

  lemma PatchNone(b: Block, ofs: nat)
    requires ofs <= SECTOR_SIZE
    ensures Patch(b, ofs, []) == b
  {
  }

  lemma PatchMore(b: Block, ofs: nat, data: seq<Byte>, n: nat)
    requires n < |data| && ofs + |data| <= SECTOR_SIZE
    ensures Patch(b, ofs, data[..n])[ofs + n := data[n]] == Patch(b, ofs, data[..n + 1])
  {
  }

  // --- putting the invariant together again ------------------------------

  /** No two entries stand for the same sector. */
  lemma StandsAlone(g: State, s: Sector, a: nat, e: nat)
    requires Shape(g) && Stands(g, a, s) && Stands(g, e, s)
    ensures a == e
  {
    if a in g.list && e in g.list {
      var i :| 0 <= i < |g.list| && g.list[i] == a;
      var j :| 0 <= j < |g.list| && g.list[j] == e;
      assert i == j || i < j || j < i;
    } else {
      if OwnerAt(g, a, Evict) && e in g.list {
        EvictedAlone(g, a, e);
      }
      if OwnerAt(g, e, Evict) && a in g.list {
        EvictedAlone(g, e, a);
      }
    }
  }

  lemma EvictedAlone(g: State, a: nat, e: nat)
    requires Shape(g) && a < |g.entries| && OwnerAt(g, a, Evict) && e in g.list
    ensures e < |g.entries| && g.entries[a].sec != g.entries[e].sec
  {
    var h := g.entries[a].owner.value;
    assert PhaseInv(g, g.pc[h]) && g.pc[h].at == a;
    var j :| 0 <= j < |g.list| && g.list[j] == e;
    assert g.entries[g.list[j]].sec != g.entries[a].sec;
  }

  /** An entry that thread `t` neither owns nor touches. */
  ghost predicate Aside(g: State, g': State, t: Tid, e: nat) {
    && Moved(g, g', t) && e < |g.entries| <= |g'.entries|
    && g'.entries[e] == g.entries[e] && g.entries[e].owner != Some(t)
  }

  lemma AsideOwner(g: State, g': State, t: Tid, e: nat, ph: Phase)
    requires Aside(g, g', t, e)
    ensures OwnerAt(g', e, ph) <==> OwnerAt(g, e, ph)
    ensures Copying(g', e) <==> Copying(g, e)
    ensures Copying(g, e) ==> g'.pc[g.entries[e].owner.value] == g.pc[g.entries[e].owner.value]
  {
  }

  lemma AsideStands(g: State, g': State, t: Tid, e: nat, s: Sector)
    requires Aside(g, g', t, e) && (e in g'.list <==> e in g.list)
    ensures Stands(g', e, s) <==> Stands(g, e, s)
  {
    AsideOwner(g, g', t, e, Evict);
  }

  lemma AsideData(g: State, g': State, t: Tid, e: nat, cur: Block)
    requires Aside(g, g', t, e) && EntryData(g, e, cur)
    requires var s := g.entries[e].sec; s in g.disk && s in g'.disk && g'.disk[s] == g.disk[s]
    ensures EntryData(g', e, cur)
  {
    AsideOwner(g, g', t, e, Mark);
  }

  /** All entries but `a` are left alone. */
  ghost predicate Only(g: State, g': State, t: Tid, a: nat) {
    && Moved(g, g', t) && (|g'.entries| == |g.entries| || (a == |g.entries| && |g'.entries| == a + 1))
    && (forall e | 0 <= e < |g.entries| && e != a ::
          Aside(g, g', t, e) && (e in g'.list <==> e in g.list))
  }

  /** The rest is about entry `a`. */
  ghost predicate Renewed(g: State, g': State, s: Sector, cur: Block, cur': Block, a: nat) {
    && s in g'.disk
    && (Stands(g, a, s) || (s in g.disk && g'.disk[s] == g.disk[s] && cur' == cur))
    && (Stands(g', a, s) ==> EntryData(g', a, cur'))
    && (Stands(g, a, s) ==> Stands(g', a, s) || g'.disk[s] == cur')
  }

  lemma RebuildEntry(g: State, g': State, t: Tid, s: Sector, cur: Block, cur': Block, a: nat, e: nat)
    requires Shape(g) && SectorInv(g, s, cur) && Only(g, g', t, a) && Renewed(g, g', s, cur, cur', a)
    requires e < |g'.entries| && Stands(g', e, s)
    ensures EntryData(g', e, cur')
  {
    if e != a {
      AsideStands(g, g', t, e, s);
      if Stands(g, a, s) {
        StandsAlone(g, s, a, e);
      } else {
        AsideData(g, g', t, e, cur);
      }
    }
  }

  lemma Rebuild(g: State, g': State, t: Tid, s: Sector, cur: Block, cur': Block, a: nat)
    requires Shape(g) && SectorInv(g, s, cur) && Only(g, g', t, a) && Renewed(g, g', s, cur, cur', a)
    ensures SectorInv(g', s, cur')
  {
    forall e | 0 <= e < |g'.entries| && Stands(g', e, s) ensures EntryData(g', e, cur') {
      RebuildEntry(g, g', t, s, cur, cur', a, e);
    }
    if g'.disk[s] != cur' && !Stands(g', a, s) {
      assert g.disk[s] != cur;
      var e :| Stands(g, e, s);
      AsideStands(g, g', t, e, s);
    }
  }

  // --- the steps without the list lock -----------------------------------

  lemma UserOnly(g: State, g': State, t: Tid)
    requires EntryLocks(g.pc, g.entries) && UserMove(g, g', t)
    ensures Only(g, g', t, g.pc[t].at)
  {
  }

  /** The entry that a user works on stands before and after. */
  lemma UserStands(g: State, g': State, t: Tid, s: Sector)
    requires Shape(g) && UserMove(g, g', t)
    requires g.pc[t].ph.WaitEntry? ==> g.entries[g.pc[t].at].owner == None
    ensures Stands(g', g.pc[t].at, s) <==> Stands(g, g.pc[t].at, s)
  {
  }

  lemma LockTurn(g: State, g': State, t: Tid, s: Sector, cur: Block)
    requires Shape(g) && UserMove(g, g', t) && !g.pc[t].ph.Use? && !g.pc[t].ph.Recheck?
    requires g.pc[t].ph.WaitEntry? ==> g.entries[g.pc[t].at].owner == None
    requires EntryData(g, g.pc[t].at, cur)
    ensures EntryData(g', g.pc[t].at, cur)
  {
  }

  lemma RecheckTurn(g: State, g': State, t: Tid, cur: Block)
    requires Shape(g) && UserMove(g, g', t) && g.pc[t].ph.Recheck?
    requires EntryData(g, g.pc[t].at, cur)
    ensures EntryData(g', g.pc[t].at, cur)
  {
    assert OpInv(g.pc[t]);
    if g.pc[t].op.Write? {
      PatchNone(cur, g.pc[t].op.ofs);
      assert g.pc[t].op.data[..0] == [];
    }
  }

  /** One more byte. */
  lemma CopyTurn(g: State, g': State, t: Tid, cur: Block)
    requires EntryLocks(g.pc, g.entries) && UserMove(g, g', t) && OpInv(g.pc[t])
    requires g.pc[t].ph.Use? && g.pc[t].n < Size(g.pc[t].op)
    requires EntryData(g, g.pc[t].at, cur)
    ensures EntryData(g', g.pc[t].at, cur)
  {
    var c, a := g.pc[t], g.pc[t].at;
    assert g.entries[a].owner == Some(t) && g'.entries[a].owner == Some(t);
    if c.op.Write? {
      CopyByte(c, cur);
      assert Copying(g, a) && Copying(g', a);
    } else {
      assert !Copying(g, a) && !Copying(g', a);
    }
  }

  lemma CopyByte(c: Pc, cur: Block)
    requires c.op.Write? && Fits(c.op) && c.n < |c.op.data|
    ensures PartCopied(cur, c)[c.op.ofs + c.n := c.op.data[c.n]] == PartCopied(cur, c.(n := c.n + 1))
  {
    PatchMore(if c.blank then Zeros() else cur, c.op.ofs, c.op.data, c.n);
  }

  /** The end of a copy is where a write takes effect. */
  lemma DoneTurn(g: State, g': State, t: Tid, cur: Block, cur': Block)
    requires Shape(g) && UserMove(g, g', t) && g.pc[t].ph.Use? && g.pc[t].n >= Size(g.pc[t].op)
    requires EntryData(g, g.pc[t].at, cur)
    requires var c := g.pc[t];
      cur' == if c.op.Write? then Patch(if c.blank then Zeros() else cur, c.op.ofs, c.op.data) else cur
    ensures EntryData(g', g.pc[t].at, cur')
  {
    var c, a := g.pc[t], g.pc[t].at;
    assert OpInv(c) && g.entries[a].owner == Some(t) && g'.entries[a].owner == Some(t);
    if c.op.Write? {
      assert c.op.data[..c.n] == c.op.data;
      assert Copying(g, a) && !Copying(g', a) && OwnerAt(g', a, Mark);
    } else {
      assert !Copying(g, a) && !Copying(g', a);
    }
  }

  /** The contents after the step of a user. */
  function After(c: Pc, s: Sector, cur: Block): Block {
    if c.ph.Use? && c.n >= Size(c.op) && c.op.Write? && c.sec == s
    then Patch(if c.blank then Zeros() else cur, c.op.ofs, c.op.data) else cur
  }

  lemma UserTurnData(g: State, g': State, t: Tid, s: Sector, cur: Block)
    requires Shape(g) && UserMove(g, g', t) && Stands(g, g.pc[t].at, s) && EntryData(g, g.pc[t].at, cur)
    requires g.pc[t].ph.WaitEntry? ==> g.entries[g.pc[t].at].owner == None
    ensures EntryData(g', g.pc[t].at, After(g.pc[t], s, cur))
  {
    var c := g.pc[t];
    if c.ph.Recheck? {
      RecheckTurn(g, g', t, cur);
    } else if !c.ph.Use? {
      LockTurn(g, g', t, s, cur);
    } else if c.n < Size(c.op) {
      assert OpInv(c);
      CopyTurn(g, g', t, cur);
    } else {
      assert PhaseInv(g, c);
      DoneTurn(g, g', t, cur, After(c, s, cur));
    }
  }

  lemma UserSector(g: State, g': State, t: Tid, s: Sector, cur: Block)
    requires Shape(g) && UserMove(g, g', t) && SectorInv(g, s, cur)
    requires g.pc[t].ph.WaitEntry? ==> g.entries[g.pc[t].at].owner == None
    ensures SectorInv(g', s, After(g.pc[t], s, cur))
  {
    var c := g.pc[t];
    var a := c.at;
    UserOnly(g, g', t);
    UserStands(g, g', t, s);
    if Stands(g, a, s) {
      UserTurnData(g, g', t, s, cur);
    } else {
      assert PhaseInv(g, c);
    }
    Rebuild(g, g', t, s, cur, After(c, s, cur), a);
  }

  /** A sector that is being loaded is nobody's yet. */
  lemma UserLoads(g: State, g': State, t: Tid, s: Sector, cur: Block)
    requires Shape(g) && UserMove(g, g', t) && LoadInv(g, s, cur)
    requires g.pc[t].ph.WaitEntry? ==> g.entries[g.pc[t].at].owner == None
    ensures LoadInv(g', s, After(g.pc[t], s, cur))
  {
    forall u | u in g'.pc && g'.pc[u].ph.Link? && g'.pc[u].sec == s && g'.pc[u].at < |g'.entries|
      ensures Loaded(g', g'.pc[u], After(g.pc[t], s, cur))
    {
      assert u != t && g.pc[u] == g'.pc[u];
      UserLoaded(g, g', t, u, s, cur);
    }
  }

  lemma UserLoaded(g: State, g': State, t: Tid, u: Tid, s: Sector, cur: Block)
    requires Shape(g) && UserMove(g, g', t) && u in g.pc && u != t
    requires g.pc[u].ph.Link? && g.pc[u].sec == s && g.pc[u].at < |g.entries| && Loaded(g, g.pc[u], cur)
    requires g.pc[t].ph.WaitEntry? ==> g.entries[g.pc[t].at].owner == None
    ensures Loaded(g', g.pc[u], After(g.pc[t], s, cur))
  {
    assert g.entries[g.pc[u].at].owner == Some(u);
    assert g.pc[u].at != g.pc[t].at;
    NotWritten(g, t, u, s);
  }

  lemma NotWritten(g: State, t: Tid, u: Tid, s: Sector)
    requires Shape(g) && t in g.pc && u in g.pc && g.pc[u].ph.Link? && g.pc[u].sec == s
    ensures g.pc[t].ph.Use? ==> g.pc[t].sec != s
  {
    assert PhaseInv(g, g.pc[u]) && PhaseInv(g, g.pc[t]);
  }

  /** A flush finds no writer, so users leave what it has done alone. */
  lemma UserSweeps(g: State, g': State, t: Tid, s: Sector, cur: Block)
    requires Shape(g) && UserMove(g, g', t) && SweepInv(g, s, cur)
    ensures SweepInv(g', s, After(g.pc[t], s, cur))
  {
    forall u | u in g'.pc && Sweeping(g'.pc[u].ph) ensures Swept(g', g'.pc[u], s, After(g.pc[t], s, cur)) {
      assert u != t && g.pc[u] == g'.pc[u];
      UserSwept(g, g', t, s, cur, g.pc[u]);
    }
  }

  lemma StillNoWriter(g: State, g': State, t: Tid, s: Sector)
    requires UserMove(g, g', t) && NoWriter(g, s)
    ensures NoWriter(g', s)
  {
    forall v ensures !Writes(g', v, s) {
      assert !Writes(g, v, s);
    }
  }

  lemma UserSwept(g: State, g': State, t: Tid, s: Sector, cur: Block, c: Pc)
    requires Shape(g) && UserMove(g, g', t) && Swept(g, c, s, cur)
    ensures Swept(g', c, s, After(g.pc[t], s, cur))
  {
    StillNoWriter(g, g', t, s);
    assert PhaseInv(g, g.pc[t]) && OpInv(g.pc[t]) && !Writes(g, t, s);
    assert g.pc[t].ph.Mark? ==> g.entries[g.pc[t].at].sec != s;
    forall j | 0 <= j < c.at && EntryAt(g', j, s) ensures !g'.entries[g'.list[j]].dirty {
      assert EntryAt(g, j, s);
    }
    assert EntryAt(g', c.at, s) ==> EntryAt(g, c.at, s);
  }

  // --- asking and searching ----------------------------------------------

  lemma AskSector(g: State, g': State, t: Tid, req: Request, s: Sector, cur: Block)
    requires Shape(g) && AskMove(g, g', t, req) && SectorInv(g, s, cur) && LoadInv(g, s, cur)
    ensures SectorInv(g', s, cur) && LoadInv(g', s, cur)
  {
    assert Only(g, g', t, |g.entries|);
    Rebuild(g, g', t, s, cur, cur, |g.entries|);
    forall u | u in g'.pc && g'.pc[u].ph.Link? && g'.pc[u].sec == s && g'.pc[u].at < |g'.entries|
      ensures Loaded(g', g'.pc[u], cur)
    {
      assert g.pc[u] == g'.pc[u];
    }
  }

  /** A flush must not begin while there is a writer. */
  predicate BeginsFlush(c: Pc) { c.ph.Start? && c.op.Flush? }

  lemma AskSweeps(g: State, g': State, t: Tid, req: Request, s: Sector, cur: Block)
    requires Shape(g) && AskMove(g, g', t, req) && SweepInv(g, s, cur)
    requires g.pc[t].ph.Start? ==> g.cacheLock == None
    requires BeginsFlush(g.pc[t]) ==> NoWriter(g, s)
    ensures SweepInv(g', s, cur)
  {
    forall u | u in g'.pc && Sweeping(g'.pc[u].ph) ensures Swept(g', g'.pc[u], s, cur) {
      if u == t {
        assert OpInv(g.pc[t]);
        AskNoWriter(g, g', t, req, s);
      } else {
        assert g.cacheLock == Some(u) && g.pc[u] == g'.pc[u] && Swept(g, g.pc[u], s, cur);
        AskNoWriter(g, g', t, req, s);
        AskSwept(g, g', t, req, s, cur, g.pc[u]);
      }
    }
  }

  lemma AskNoWriter(g: State, g': State, t: Tid, req: Request, s: Sector)
    requires AskMove(g, g', t, req) && NoWriter(g, s) && !g.pc[t].ph.Hit?
    ensures NoWriter(g', s)
  {
    forall v ensures !Writes(g', v, s) {
      assert !Writes(g, v, s);
    }
  }

  lemma AskSwept(g: State, g': State, t: Tid, req: Request, s: Sector, cur: Block, c: Pc)
    requires AskMove(g, g', t, req) && Swept(g, c, s, cur) && NoWriter(g', s)
    ensures Swept(g', c, s, cur)
  {
    forall j | 0 <= j < c.at && EntryAt(g', j, s) ensures !g'.entries[g'.list[j]].dirty {
      assert EntryAt(g, j, s);
    }
    assert EntryAt(g', c.at, s) ==> EntryAt(g, c.at, s);
  }

  /** While `t` has the list lock, nobody else loads or flushes. */
  lemma AloneWithList(g: State, g': State, t: Tid, s: Sector, cur: Block)
    requires CacheLockInv(g) && Moved(g, g', t) && HoldsCache(g.pc[t].ph)
    requires !g'.pc[t].ph.Link? && !Sweeping(g'.pc[t].ph)
    ensures LoadInv(g', s, cur) && SweepInv(g', s, cur)
  {
  }

  lemma ScanData(g: State, g': State, t: Tid, s: Sector, cur: Block)
    requires Shape(g) && t in g.pc && g.pc[t].ph.Scan? && ScanSafe(g, g.pc[t]) && g' == ScanStep(g, t, g.pc[t])
    requires SectorInv(g, s, cur)
    ensures SectorInv(g', s, cur) && LoadInv(g', s, cur) && SweepInv(g', s, cur)
  {
    ScanOnly(g, g', t, s);
    Rebuild(g, g', t, s, cur, cur, |g.entries|);
    AloneWithList(g, g', t, s, cur);
  }

  lemma ScanOnly(g: State, g': State, t: Tid, s: Sector)
    requires ListInv(g) && EntryLocks(g.pc, g.entries) && t in g.pc && g.pc[t].ph.Scan? && ScanSafe(g, g.pc[t])
    requires g' == ScanStep(g, t, g.pc[t])
    ensures Only(g, g', t, |g.entries|) && g'.disk == g.disk
    ensures !Stands(g, |g.entries|, s) && !Stands(g', |g.entries|, s)
  {
    assert |g.entries| !in g'.list by {
      assert forall e | e in g.list :: e < |g.entries|;
    }
  }

  // --- replacing an entry ------------------------------------------------

  lemma VictimEntry(g: State, g': State, t: Tid, s: Sector, cur: Block, a: nat)
    requires t in g.pc && a < |g.entries| && g.entries[a].owner == None && a in g.list && SectorInv(g, s, cur)
    requires g'.pc == g.pc[t := g.pc[t].(ph := Evict)] && g'.disk == g.disk
    requires g'.entries == g.entries[a := g.entries[a].(owner := Some(t))]
    ensures Stands(g', a, s) <==> Stands(g, a, s)
    ensures Stands(g', a, s) ==> EntryData(g', a, cur)
  {
    assert Stands(g, a, s) ==> EntryData(g, a, cur);
  }

  lemma VictimOnly(g: State, g': State, t: Tid, a: nat)
    requires EntryLocks(g.pc, g.entries) && t in g.pc && !HoldsEntry(g.pc[t].ph) && a < |g.entries|
    requires g'.pc == g.pc[t := g.pc[t].(ph := Evict)]
    requires g'.entries == g.entries[a := g.entries[a].(owner := Some(t))]
    requires g.list != [] && a == g.list[|g.list| - 1] && g'.list == g.list[..|g.list| - 1]
    ensures Only(g, g', t, a)
  {
    assert g.list == g'.list + [a];
  }

  lemma VictimData(g: State, g': State, t: Tid, s: Sector, cur: Block)
    requires Shape(g) && t in g.pc && g.pc[t].ph.WaitVictim? && EntrySafe(g, g.pc[t])
    requires g' == ReuseStep(g, t, g.pc[t]) && g.entries[g.pc[t].at].owner == None
    requires SectorInv(g, s, cur)
    ensures SectorInv(g', s, cur)
  {
    var a := g.pc[t].at;
    assert PhaseInv(g, g.pc[t]);
    VictimOnly(g, g', t, a);
    VictimEntry(g, g', t, s, cur, a);
    Rebuild(g, g', t, s, cur, cur, a);
  }

  lemma EvictData(g: State, g': State, t: Tid, s: Sector, cur: Block)
    requires Shape(g) && t in g.pc && g.pc[t].ph.Evict? && EntrySafe(g, g.pc[t])
    requires g' == ReuseStep(g, t, g.pc[t]) && SectorInv(g, s, cur)
    ensures SectorInv(g', s, cur)
  {
    var a := g.pc[t].at;
    assert PhaseInv(g, g.pc[t]);
    assert Only(g, g', t, a);
    assert Stands(g, a, s) ==> EntryData(g, a, cur);
    assert !Stands(g', a, s);
    Rebuild(g, g', t, s, cur, cur, a);
  }

  /** A sector that is neither on the list nor being evicted is on the device. */
  lemma AbsentOnDisk(g: State, t: Tid, s: Sector, cur: Block)
    requires Shape(g) && SectorInv(g, s, cur) && Absent(g, s)
    requires t in g.pc && HoldsCache(g.pc[t].ph) && !g.pc[t].ph.Evict?
    ensures g.disk[s] == cur
  {
    forall e ensures !Stands(g, e, s) {
      if e in g.list {
        var j :| 0 <= j < |g.list| && g.list[j] == e;
      }
    }
  }

  lemma FillData(g: State, g': State, t: Tid, s: Sector, cur: Block)
    requires Shape(g) && t in g.pc && g.pc[t].ph.Fill? && EntrySafe(g, g.pc[t])
    requires g' == ReuseStep(g, t, g.pc[t]) && SectorInv(g, s, cur)
    ensures SectorInv(g', s, cur) && LoadInv(g', s, cur)
  {
    var a := g.pc[t].at;
    assert PhaseInv(g, g.pc[t]);
    assert Only(g, g', t, a);
    assert !Stands(g, a, s) && !Stands(g', a, s);
    Rebuild(g, g', t, s, cur, cur, a);
    if g.pc[t].sec == s {
      AbsentOnDisk(g, t, s, cur);
    }
    forall u | u in g'.pc && g'.pc[u].ph.Link? ensures u == t {
    }
  }

  lemma LinkData(g: State, g': State, t: Tid, s: Sector, cur: Block)
    requires Shape(g) && t in g.pc && g.pc[t].ph.Link? && EntrySafe(g, g.pc[t])
    requires g' == ReuseStep(g, t, g.pc[t]) && SectorInv(g, s, cur) && LoadInv(g, s, cur)
    ensures SectorInv(g', s, cur)
  {
    var c, a := g.pc[t], g.pc[t].at;
    assert PhaseInv(g, c) && OpInv(c);
    assert g'.list == [a] + g.list;
    assert Only(g, g', t, a);
    assert !Stands(g, a, s);
    if c.sec == s {
      assert Loaded(g, c, cur);
      LinkedData(g, g', t, cur);
    }
    Rebuild(g, g', t, s, cur, cur, a);
  }

  lemma LinkedData(g: State, g': State, t: Tid, cur: Block)
    requires t in g.pc && g.pc[t].ph.Link? && OpInv(g.pc[t]) && EntrySafe(g, g.pc[t])
    requires Loaded(g, g.pc[t], cur) && g.entries[g.pc[t].at].owner == Some(t)
    requires g.entries[g.pc[t].at].sec == g.pc[t].sec
    requires g'.pc == g.pc[t := g.pc[t].(ph := Linked)] && g'.entries == g.entries && g'.disk == g.disk
    ensures EntryData(g', g.pc[t].at, cur)
  {
    var c := g.pc[t];
    if c.op.Write? {
      PatchNone(Zeros(), c.op.ofs);
      assert c.op.data[..0] == [];
    }
  }

  lemma LinkedStepData(g: State, g': State, t: Tid, s: Sector, cur: Block)
    requires Shape(g) && t in g.pc && g.pc[t].ph.Linked? && EntrySafe(g, g.pc[t])
    requires g' == ReuseStep(g, t, g.pc[t]) && SectorInv(g, s, cur)
    ensures SectorInv(g', s, cur)
  {
    var a := g.pc[t].at;
    assert Only(g, g', t, a);
    assert Stands(g', a, s) ==> Stands(g, a, s) && EntryData(g, a, cur);
    assert g.entries[a].owner == Some(t);
    Rebuild(g, g', t, s, cur, cur, a);
  }

  lemma ReuseData(g: State, g': State, t: Tid, s: Sector, cur: Block)
    requires Shape(g) && t in g.pc && Reusing(g.pc[t].ph) && EntrySafe(g, g.pc[t])
    requires g.pc[t].ph.WaitVictim? ==> g.entries[g.pc[t].at].owner == None
    requires g' == ReuseStep(g, t, g.pc[t]) && SectorInv(g, s, cur) && LoadInv(g, s, cur)
    ensures SectorInv(g', s, cur) && LoadInv(g', s, cur)
  {
    var ph := g.pc[t].ph;
    if ph.Fill? {
      FillData(g, g', t, s, cur);
    } else {
      AloneWithList(g, g', t, s, cur);
      if ph.WaitVictim? {
        VictimData(g, g', t, s, cur);
      } else if ph.Evict? {
        EvictData(g, g', t, s, cur);
      } else if ph.Link? {
        LinkData(g, g', t, s, cur);
      } else {
        LinkedStepData(g, g', t, s, cur);
      }
    }
  }

  lemma ReuseSweeps(g: State, g': State, t: Tid, s: Sector, cur: Block)
    requires CacheLockInv(g) && t in g.pc && Reusing(g.pc[t].ph) && EntrySafe(g, g.pc[t])
    requires g' == ReuseStep(g, t, g.pc[t])
    ensures SweepInv(g', s, cur)
  {
    forall u | u in g'.pc ensures !Sweeping(g'.pc[u].ph) {
      assert u != t ==> !HoldsCache(g.pc[u].ph);
    }
  }

  // --- the flush ---------------------------------------------------------

  /** The entry of a sector without a writer is complete and marked if need be. */
  lemma NotCopying(g: State, s: Sector, a: nat)
    requires Shape(g) && NoWriter(g, s) && a < |g.entries| && g.entries[a].sec == s && a in g.list
    ensures !Copying(g, a) && !OwnerAt(g, a, Mark)
  {
    if g.entries[a].owner.Some? {
      var h := g.entries[a].owner.value;
      assert PhaseInv(g, g.pc[h]) && OpInv(g.pc[h]) && !Writes(g, h, s);
    }
  }

  lemma SweepOnly(g: State, g': State, t: Tid, a: nat)
    requires EntryLocks(g.pc, g.entries) && SweepMove(g, g', t)
    requires forall e | 0 <= e < |g.entries| && e != a :: g'.entries[e] == g.entries[e]
    ensures Only(g, g', t, a)
  {
  }

  lemma SaveData(g: State, g': State, t: Tid, s: Sector, cur: Block)
    requires Shape(g) && SweepMove(g, g', t) && g.pc[t].ph.Save?
    requires SectorInv(g, s, cur) && Swept(g, g.pc[t], s, cur)
    ensures SectorInv(g', s, cur)
    ensures EntryAt(g, g.pc[t].at, s) ==> g'.disk[s] == cur
  {
    var a := g.list[g.pc[t].at];
    SweepOnly(g, g', t, a);
    if g.entries[a].sec == s {
      NotCopying(g, s, a);
      SavedEntry(g, g', t, s, cur, a);
    }
    Rebuild(g, g', t, s, cur, cur, a);
  }

  /** An entry that the flush has written or cleared. */
  lemma SavedEntry(g: State, g': State, t: Tid, s: Sector, cur: Block, a: nat)
    requires Moved(g, g', t) && SectorInv(g, s, cur) && a < |g.entries| == |g'.entries| && g.entries[a].sec == s
    requires a in g.list && a in g'.list && !Copying(g, a) && !OwnerAt(g, a, Mark) && g.entries[a].owner != Some(t)
    requires g'.entries[a] == g.entries[a].(dirty := g'.entries[a].dirty)
    requires s in g'.disk && (g'.disk[s] == g.entries[a].data || g'.disk[s] == cur)
    ensures Stands(g, a, s) && Stands(g', a, s) && EntryData(g', a, cur) && g'.disk[s] == cur
  {
    assert Stands(g, a, s) && EntryData(g, a, cur);
  }

  lemma ClearData(g: State, g': State, t: Tid, s: Sector, cur: Block)
    requires Shape(g) && SweepMove(g, g', t) && g.pc[t].ph.Clear?
    requires SectorInv(g, s, cur) && Swept(g, g.pc[t], s, cur)
    ensures SectorInv(g', s, cur)
  {
    var a := g.list[g.pc[t].at];
    SweepOnly(g, g', t, a);
    if g.entries[a].sec == s {
      NotCopying(g, s, a);
      assert EntryAt(g, g.pc[t].at, s);
      SavedEntry(g, g', t, s, cur, a);
    }
    Rebuild(g, g', t, s, cur, cur, a);
  }

  lemma LookData(g: State, g': State, t: Tid, s: Sector, cur: Block)
    requires Shape(g) && SweepMove(g, g', t) && g.pc[t].ph.Sweep? && SectorInv(g, s, cur)
    ensures SectorInv(g', s, cur)
  {
    SweepOnly(g, g', t, |g.entries|);
    Rebuild(g, g', t, s, cur, cur, |g.entries|);
  }

  lemma SweptMore(g: State, g': State, t: Tid, s: Sector, cur: Block)
    requires SweepMove(g, g', t) && Sweeping(g'.pc[t].ph) && Swept(g, g.pc[t], s, cur) && s in g'.disk
    requires g.pc[t].ph.Save? && EntryAt(g, g.pc[t].at, s) ==> g'.disk[s] == cur
    ensures Swept(g', g'.pc[t], s, cur)
  {
    SweepNoWriter(g, g', t, s);
    SweepDone(g, g', t, s, g.pc[t].at);
  }

  lemma SweepNoWriter(g: State, g': State, t: Tid, s: Sector)
    requires SweepMove(g, g', t) && NoWriter(g, s)
    ensures NoWriter(g', s)
  {
    forall v ensures !Writes(g', v, s) {
      assert !Writes(g, v, s);
    }
  }

  /** What has been swept stays swept. */
  lemma SweepDone(g: State, g': State, t: Tid, s: Sector, n: nat)
    requires SweepMove(g, g', t)
    requires forall e | 0 <= e < |g.entries| :: g'.entries[e].dirty ==> g.entries[e].dirty
    requires forall j | 0 <= j < n && EntryAt(g, j, s) :: !g.entries[g.list[j]].dirty
    ensures forall j | 0 <= j < n && EntryAt(g', j, s) :: !g'.entries[g'.list[j]].dirty
    ensures EntryAt(g', n, s) <==> EntryAt(g, n, s)
  {
    forall j | 0 <= j < n && EntryAt(g', j, s) ensures !g'.entries[g'.list[j]].dirty {
      assert EntryAt(g, j, s);
    }
  }

  lemma SweepData(g: State, g': State, t: Tid, s: Sector, cur: Block)
    requires Shape(g) && SweepMove(g, g', t) && SectorInv(g, s, cur) && SweepInv(g, s, cur)
    ensures SectorInv(g', s, cur) && LoadInv(g', s, cur) && SweepInv(g', s, cur)
  {
    assert Swept(g, g.pc[t], s, cur);
    if g.pc[t].ph.Save? {
      SaveData(g, g', t, s, cur);
    } else if g.pc[t].ph.Clear? {
      ClearData(g, g', t, s, cur);
    } else {
      LookData(g, g', t, s, cur);
    }
    if Sweeping(g'.pc[t].ph) {
      SweptMore(g, g', t, s, cur);
    }
    forall u | u in g'.pc && u != t ensures !g'.pc[u].ph.Link? && !Sweeping(g'.pc[u].ph) {
      assert !HoldsCache(g.pc[u].ph);
    }
  }

  // --- readers' buffers --------------------------------------------------

  /** A reader's entry is changed by nobody else. */
  lemma OthersBuf(g: State, g': State, t: Tid)
    requires BufInv(g) && Moved(g, g', t) && EntryLocks(g.pc, g.entries) && |g.entries| <= |g'.entries|
    requires forall e | 0 <= e < |g.entries| && g'.entries[e].data != g.entries[e].data :: g.entries[e].owner == Some(t)
    requires g'.pc[t].ph.Use? && g'.pc[t].op.Read? && g'.pc[t].at < |g'.entries| ==>
      BufOk(g'.pc[t], g'.entries[g'.pc[t].at])
    ensures BufInv(g')
  {
    forall u | u in g'.pc && g'.pc[u].ph.Use? && g'.pc[u].op.Read? && g'.pc[u].at < |g'.entries|
      ensures BufOk(g'.pc[u], g'.entries[g'.pc[u].at])
    {
      if u != t {
        assert g.pc[u] == g'.pc[u] && g.entries[g.pc[u].at].owner == Some(u);
        assert BufOk(g.pc[u], g.entries[g.pc[u].at]);
      }
    }
  }

  lemma UserBuf(g: State, g': State, t: Tid)
    requires BufInv(g) && EntryLocks(g.pc, g.entries) && UserMove(g, g', t) && OpInv(g.pc[t])
    ensures BufInv(g')
  {
    var c := g.pc[t];
    if c.ph.Use? && c.op.Read? {
      assert BufOk(c, g.entries[c.at]);
    }
    OthersBuf(g, g', t);
  }

  lemma ReuseBuf(g: State, g': State, t: Tid)
    requires BufInv(g) && EntryLocks(g.pc, g.entries) && t in g.pc && OpInv(g.pc[t])
    requires Reusing(g.pc[t].ph) && EntrySafe(g, g.pc[t]) && g' == ReuseStep(g, t, g.pc[t])
    ensures BufInv(g')
  {
    OthersBuf(g, g', t);
  }

  lemma BufStep(g: State, t: Tid, req: Request)
    requires Shape(g) && BufInv(g) && Enabled(g, t, req)
    ensures BufInv(Next(g, t, req))
  {
    var c, g' := g.pc[t], Next(g, t, req);
    assert OpInv(c);
    if Using(c.ph) {
      UserMoves(g, t);
      UserBuf(g, g', t);
    } else if Reusing(c.ph) {
      ReuseBuf(g, g', t);
    } else if Sweeping(c.ph) {
      SweepMoves(g, t);
      OthersBuf(g, g', t);
    } else if Asking(c.ph) {
      AskMoves(g, t, req);
      OthersBuf(g, g', t);
    } else {
      ScanBuf(g, g', t);
    }
  }

  lemma ScanBuf(g: State, g': State, t: Tid)
    requires BufInv(g) && EntryLocks(g.pc, g.entries) && t in g.pc && g.pc[t].ph.Scan?
    requires ScanSafe(g, g.pc[t]) && g' == ScanStep(g, t, g.pc[t])
    ensures BufInv(g')
  {
    OthersBuf(g, g', t);
  }

  // --- whole runs --------------------------------------------------------

  ghost predicate DataInv(g: State, s: Sector, cur: Block) {
    SectorInv(g, s, cur) && LoadInv(g, s, cur) && SweepInv(g, s, cur)
  }

  ghost predicate Inv(b: Block, g: State, s: Sector) {
    Shape(g) && BufInv(g) && DataInv(g, s, Contents(b, g.log, s)) && Consistent(b, g.log, s)
  }

  lemma UserData(g: State, g': State, t: Tid, s: Sector, cur: Block)
    requires Shape(g) && UserMove(g, g', t) && DataInv(g, s, cur)
    requires g.pc[t].ph.WaitEntry? ==> g.entries[g.pc[t].at].owner == None
    ensures DataInv(g', s, After(g.pc[t], s, cur))
  {
    UserSector(g, g', t, s, cur);
    UserLoads(g, g', t, s, cur);
    UserSweeps(g, g', t, s, cur);
  }

  lemma DataStep(g: State, t: Tid, req: Request, s: Sector, cur: Block)
    requires Shape(g) && DataInv(g, s, cur) && Enabled(g, t, req)
    requires BeginsFlush(g.pc[t]) ==> NoWriter(g, s)
    ensures DataInv(Next(g, t, req), s, After(g.pc[t], s, cur))
  {
    var c, g' := g.pc[t], Next(g, t, req);
    if Using(c.ph) {
      UserMoves(g, t);
      UserData(g, g', t, s, cur);
    } else if Reusing(c.ph) {
      ReuseData(g, g', t, s, cur);
      ReuseSweeps(g, g', t, s, cur);
    } else if Sweeping(c.ph) {
      SweepMoves(g, t);
      SweepData(g, g', t, s, cur);
    } else if Asking(c.ph) {
      AskMoves(g, t, req);
      AskSector(g, g', t, req, s, cur);
      AskSweeps(g, g', t, req, s, cur);
    } else {
      ScanData(g, g', t, s, cur);
    }
  }

  /** The event that the next step of `t` logs, if any. */
  predicate Logs(c: Pc) { c.ph.Use? && c.n >= Size(c.op) }

  function EventOf(c: Pc): Event
    requires !c.op.Flush?
  {
    if c.op.Write? then DidWrite(c.sec, c.op.ofs, c.op.data, c.blank) else DidRead(c.sec, c.op.ofs, c.buf)
  }

  lemma LogStep(g: State, t: Tid, req: Request)
    requires Shape(g) && Enabled(g, t, req)
    ensures Logs(g.pc[t]) ==> !g.pc[t].op.Flush?
    ensures Next(g, t, req).log == if Logs(g.pc[t]) then g.log + [EventOf(g.pc[t])] else g.log
  {
    assert OpInv(g.pc[t]);
    if Using(g.pc[t].ph) {
      UserLog(g, t);
    } else if Sweeping(g.pc[t].ph) {
      SweepMoves(g, t);
    } else if Asking(g.pc[t].ph) {
      AskMoves(g, t, req);
    }
  }

  lemma UserLog(g: State, t: Tid)
    requires t in g.pc && OpInv(g.pc[t]) && Using(g.pc[t].ph) && EntrySafe(g, g.pc[t])
    ensures UserStep(g, t, g.pc[t]).log == if Logs(g.pc[t]) then g.log + [EventOf(g.pc[t])] else g.log
  {
  }

  lemma ContentsMore(b: Block, log: seq<Event>, s: Sector, ev: Event)
    ensures Contents(b, log + [ev], s) ==
      if ev.DidWrite? && ev.sec == s then Patch(if ev.blank then Zeros() else Contents(b, log, s), ev.ofs, ev.data)
      else Contents(b, log, s)
  {
    assert (log + [ev])[..|log|] == log;
  }

  lemma ConsistentMore(b: Block, log: seq<Event>, s: Sector, ev: Event)
    requires Consistent(b, log, s)
    requires ev.DidRead? && ev.sec == s ==> ReadRight(Contents(b, log, s), ev)
    ensures Consistent(b, log + [ev], s)
  {
    var log' := log + [ev];
    forall i | 0 <= i < |log'| && log'[i].DidRead? && log'[i].sec == s
      ensures ReadRight(Contents(b, log'[..i], s), log'[i])
    {
      if i < |log| {
        assert log'[..i] == log[..i] && log'[i] == log[i];
      } else {
        assert log'[..i] == log;
      }
    }
  }

  /** What a reader logs is right. */
  lemma ReadsCurrent(g: State, t: Tid, s: Sector, cur: Block)
    requires Shape(g) && BufInv(g) && SectorInv(g, s, cur)
    requires t in g.pc && g.pc[t].ph.Use? && g.pc[t].op.Read? && g.pc[t].sec == s
    ensures ReadRight(cur, EventOf(g.pc[t]))
  {
    var c := g.pc[t];
    assert PhaseInv(g, c) && OpInv(c) && BufOk(c, g.entries[c.at]);
    assert Stands(g, c.at, s) && EntryData(g, c.at, cur);
  }

  lemma LoggedStep(b: Block, g: State, s: Sector, t: Tid, log': seq<Event>)
    requires Inv(b, g, s) && t in g.pc && Logs(g.pc[t]) && !g.pc[t].op.Flush? && log' == g.log + [EventOf(g.pc[t])]
    ensures Contents(b, log', s) == After(g.pc[t], s, Contents(b, g.log, s)) && Consistent(b, log', s)
  {
    var c := g.pc[t];
    if c.op.Read? && c.sec == s {
      ReadsCurrent(g, t, s, Contents(b, g.log, s));
    }
    ContentsMore(b, g.log, s, EventOf(c));
    ConsistentMore(b, g.log, s, EventOf(c));
  }

  lemma InvStep(b: Block, g: State, s: Sector, t: Tid, req: Request)
    requires Inv(b, g, s) && Enabled(g, t, req)
    requires BeginsFlush(g.pc[t]) ==> NoWriter(g, s)
    ensures Inv(b, Next(g, t, req), s)
  {
    ShapeStep(g, t, req);
    BufStep(g, t, req);
    DataStep(g, t, req, s, Contents(b, g.log, s));
    LogStep(g, t, req);
    if Logs(g.pc[t]) {
      LoggedStep(b, g, s, t, Next(g, t, req).log);
    }
  }

  /** No flush begins while there is a writer of `s`. */
  ghost predicate Calm(g: State, schedule: seq<Choice>, s: Sector)
    decreases |schedule|
  {
    schedule != [] ==>
      var c := schedule[0];
      && (Enabled(g, c.t, c.req) && BeginsFlush(g.pc[c.t]) ==> NoWriter(g, s))
      && Calm(Take(g, c), schedule[1..], s)
  }

  lemma {:induction false} InvRun(b: Block, g: State, schedule: seq<Choice>, s: Sector)
    requires Inv(b, g, s) && Calm(g, schedule, s)
    ensures Inv(b, Exec(g, schedule), s)
    decreases |schedule|
  {
    if schedule != [] {
      var c := schedule[0];
      if Enabled(g, c.t, c.req) {
        InvStep(b, g, s, c.t, c.req);
      }
      InvRun(b, Take(g, c), schedule[1..], s);
    }
  }

  /** Some run that is calm for `s` leads to `g`. */
  ghost predicate Calmly(init: map<Sector, Block>, g: State, s: Sector) {
    exists threads, schedule :: g == Exec(Init(threads, init), schedule) && Calm(Init(threads, init), schedule, s)
  }

  lemma CalmInv(init: map<Sector, Block>, g: State, s: Sector)
    requires Calmly(init, g, s) && s in init
    ensures Inv(init[s], g, s)
  {
    var threads, schedule :| g == Exec(Init(threads, init), schedule) && Calm(Init(threads, init), schedule, s);
    InitInv(init, threads, s);
    InvRun(init[s], Init(threads, init), schedule, s);
  }

  lemma InitInv(init: map<Sector, Block>, threads: set<Tid>, s: Sector)
    requires s in init
    ensures Inv(init[s], Init(threads, init), s)
  {
  }

  /** Linearisability: under every interleaving and every eviction, each read of a
      sector returns the bytes of the last writes to it, in every run in which no
      flush begins while the sector has a writer. */
  lemma ReadsSeeLastWrite(init: map<Sector, Block>, g: State, s: Sector, i: nat)
    requires Calmly(init, g, s) && s in init
    requires i < |g.log| && g.log[i].DidRead? && g.log[i].sec == s
    ensures ReadRight(Contents(init[s], g.log[..i], s), g.log[i])
  {
    CalmInv(init, g, s);
  }

  /** Every run without flushes is calm. */
  lemma {:induction false} WithoutFlush(g: State, schedule: seq<Choice>, s: Sector)
    requires Shape(g) && forall t | t in g.pc :: !BeginsFlush(g.pc[t])
    requires forall i | 0 <= i < |schedule| :: !schedule[i].req.op.Flush?
    ensures Calm(g, schedule, s)
    decreases |schedule|
  {
    if schedule != [] {
      var c := schedule[0];
      if Enabled(g, c.t, c.req) {
        ShapeStep(g, c.t, c.req);
        NoFlushBegins(g, c.t, c.req);
      }
      WithoutFlush(Take(g, c), schedule[1..], s);
    }
  }

  lemma NoFlushBegins(g: State, t: Tid, req: Request)
    requires Shape(g) && Enabled(g, t, req) && !req.op.Flush?
    requires forall u | u in g.pc :: !BeginsFlush(g.pc[u])
    ensures forall u | u in Next(g, t, req).pc :: !BeginsFlush(Next(g, t, req).pc[u])
  {
    OwnMove(g, t, req);
    OwnBegins(g, t, req);
  }

  lemma OwnBegins(g: State, t: Tid, req: Request)
    requires Enabled(g, t, req) && OpInv(g.pc[t]) && !req.op.Flush?
    ensures t in Next(g, t, req).pc && !BeginsFlush(Next(g, t, req).pc[t])
  {
    if Using(g.pc[t].ph) {
      UserMoves(g, t);
    } else if Sweeping(g.pc[t].ph) {
      SweepMoves(g, t);
    } else if Asking(g.pc[t].ph) {
      AskMoves(g, t, req);
    } else if Reusing(g.pc[t].ph) {
      ReuseOn(g, t);
    }
  }

  lemma ReuseOn(g: State, t: Tid)
    requires t in g.pc && Reusing(g.pc[t].ph) && EntrySafe(g, g.pc[t])
    ensures var g' := ReuseStep(g, t, g.pc[t]); t in g'.pc && !g'.pc[t].ph.Start?
  {
  }
}
