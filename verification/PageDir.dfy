/** The two-level page directory of a user process, as a partial map from user
    pages to frames. Pages and page tables are known by their frame numbers, so
    that the addresses of the two address spaces need not be told apart. */
module PageDir {
  import opened Common
  import opened Arithmetic
  import opened Bitwise

  const ENTRIES: nat := 1024
  /** Directory entries below the kernel's part of the address space. */
  const USER: nat := 768
  const USER_PAGES: nat := 768 * 1024

  // --- entries -----------------------------------------------------------------

  const PTE_FLAGS: nat := 0xFFF
  const PTE_ADDR: nat := 0xFFFF_F000
  const PTE_P: nat := 1
  const PTE_W: nat := 2
  const PTE_U: nat := 4

  /** A frame number above twelve flag bits: section 3.7.6 of the Intel IA-32
      manual, volume 3A. */
  function Entry(frame: nat, flags: nat): nat
    requires flags < 4096
  {
    frame * 4096 + flags
  }

  function FrameOf(e: nat): nat { e / 4096 }
  predicate Present(e: nat) { e % 2 == 1 }
  predicate Writable(e: nat) { e / 2 % 2 == 1 }
  predicate ForUser(e: nat) { e / 4 % 2 == 1 }

  /** `pde_create`: present, writable, for user code. */
  function TableEntry(frame: nat): nat { Entry(frame, 7) }

  /** `pte_create_user`. */
  function UserEntry(frame: nat, writable: bool): nat { Entry(frame, if writable then 7 else 5) }

  lemma PartsOf(frame: nat, flags: nat, half: nat)
    requires flags < 4096 && flags == 2 * half + 1
    ensures FrameOf(Entry(frame, flags)) == frame && Present(Entry(frame, flags))
    ensures Entry(frame, flags) / 2 == frame * 2048 + half && Entry(frame, flags) / 4 == frame * 1024 + half / 2
  {
    DivUnique(Entry(frame, flags), 4096, frame);
    DivUnique(Entry(frame, flags), 2, frame * 2048 + half);
    DivUnique(Entry(frame, flags), 4, frame * 1024 + half / 2);
    DivMod(Entry(frame, flags), 2);
  }

  lemma HalfParity(frame: nat, half: nat)
    requires half < 4
    ensures (frame * 2048 + half) % 2 == half % 2 && (frame * 1024 + half / 2) % 2 == half / 2
  {
    DivUnique(frame * 2048 + half, 2, frame * 1024 + half / 2);
    DivMod(frame * 2048 + half, 2);
    DivUnique(frame * 1024 + half / 2, 2, frame * 512);
    DivMod(frame * 1024 + half / 2, 2);
  }

  lemma EntryParts(frame: nat, writable: bool)
    ensures var e := TableEntry(frame); FrameOf(e) == frame && Present(e) && Writable(e) && ForUser(e) && e != 0
    ensures var e := UserEntry(frame, writable);
      FrameOf(e) == frame && Present(e) && Writable(e) == writable && ForUser(e)
  {
    PartsOf(frame, 7, 3);
    PartsOf(frame, 5, 2);
    HalfParity(frame, 3);
    HalfParity(frame, 2);
  }

  lemma Powers12()
    ensures Pow2(12) == 4096 && Pow2(20) == 0x10_0000
  {
    PowAdd(4, 4);
    PowAdd(8, 4);
    PowAdd(12, 8);
  }

  lemma Shifted12(x: nat)
    ensures Shifted(x, 12) == 4096 * x
  {
    Shift16(x, 0);
    Shift4(x, 8);
  }

  /** The entries in terms of the operations of the code: flags are or-ed in, frame
      and flags are masked out. */
  lemma EntryBits(frame: nat, flags: nat)
    requires frame < 0x10_0000 && flags < 4096
    ensures Or(frame * 4096, flags) == Entry(frame, flags)
    ensures And(Entry(frame, flags), PTE_ADDR) == frame * 4096
    ensures And(Entry(frame, flags), PTE_FLAGS) == flags
  {
    Powers12();
    Shifted12(frame);
    Shifted12(Pow2(20) - 1);
    OrLow(frame, flags, 12);
    AndHigh(frame, flags, 12, 20);
    LowPart(Entry(frame, flags), frame, flags);
  }

  lemma LowPart(e: nat, frame: nat, flags: nat)
    requires e == frame * 4096 + flags && flags < 4096
    ensures And(e, PTE_FLAGS) == flags
  {
    Powers12();
    AndMask(e, 12);
    ModUnique(e, 4096, frame, flags);
  }

  /** And so are the tests of the three flags, and the clearing of the first. */
  lemma FlagBits(e: nat)
    requires e < B
    ensures And(e, PTE_P) != 0 <==> Present(e)
    ensures And(e, PTE_W) != 0 <==> Writable(e)
    ensures And(e, PTE_U) != 0 <==> ForUser(e)
    ensures Present(e) ==> And(e, B - 1 - PTE_P) == e - 1
  {
    assert Pow2(1) == 2 * Pow2(0);
    AndMask(e, 1);
    AndMask(e / 2, 1);
    AndBits(e, 2, e / 2, 1, e % 2, 0);
    UserBit(e);
    AndBits(e, B - 2, e / 2, 0x7FFF_FFFF, e % 2, 0);
    Powers31();
    AndMask(e / 2, 31);
    SmallMod(e / 2, Pow2(31));
  }

  lemma UserBit(e: nat)
    ensures And(e, PTE_U) != 0 <==> ForUser(e)
  {
    assert Pow2(1) == 2 * Pow2(0) && e / 2 / 2 == e / 4;
    AndMask(e / 4, 1);
    AndBits(e / 2, 2, e / 4, 1, e / 2 % 2, 0);
    AndBits(e, 4, e / 2, 2, e % 2, 0);
  }

  lemma Powers31()
    ensures Pow2(31) == 0x8000_0000
  {
    Powers();
    assert Pow2(32) == 2 * Pow2(31);
  }

  // --- the directory -------------------------------------------------------------

  type Table = t: seq<nat> | |t| == ENTRIES witness seq(ENTRIES, _ => 0)

  /** A user entry of the directory is empty or points to a table of its own. */
  ghost predicate DirOk(dir: Table, tables: map<nat, Table>) {
    && (forall i | 0 <= i < USER && dir[i] != 0 :: Present(dir[i]) && FrameOf(dir[i]) in tables)
    && (forall i, j | 0 <= i < j < USER && dir[i] != 0 && dir[j] != 0 :: FrameOf(dir[i]) != FrameOf(dir[j]))
  }

  /** The entry of user page `u`, 0 where there is no table. */
  function EntryAt(dir: Table, tables: map<nat, Table>, u: nat): nat
    requires u < USER_PAGES
  {
    var e := dir[u / ENTRIES];
    if e != 0 && FrameOf(e) in tables then tables[FrameOf(e)][u % ENTRIES] else 0
  }

  ghost predicate SameElsewhere(dir: Table, tables: map<nat, Table>, dir': Table, tables': map<nat, Table>, u: nat) {
    forall v | 0 <= v < USER_PAGES && v != u :: EntryAt(dir', tables', v) == EntryAt(dir, tables, v)
  }

  /** An empty table is added for user page `u`. */
  lemma AddTable(dir: Table, tables: map<nat, Table>, u: nat, frame: nat)
    requires DirOk(dir, tables) && u < USER_PAGES && dir[u / ENTRIES] == 0 && frame !in tables
    ensures var dir', tables' := dir[u / ENTRIES := TableEntry(frame)], tables[frame := seq(ENTRIES, _ => 0)];
      && DirOk(dir', tables')
      && forall v | 0 <= v < USER_PAGES :: EntryAt(dir', tables', v) == EntryAt(dir, tables, v)
  {
    EntryParts(frame, true);
    var dir', tables' := dir[u / ENTRIES := TableEntry(frame)], tables[frame := seq(ENTRIES, _ => 0)];
    forall v | 0 <= v < USER_PAGES ensures EntryAt(dir', tables', v) == EntryAt(dir, tables, v) {
      assert v / ENTRIES < USER;
    }
  }

  /** Writing the entry of one page changes that page and no other. */
  lemma PutEntry(dir: Table, tables: map<nat, Table>, u: nat, e: nat)
    requires DirOk(dir, tables) && u < USER_PAGES && dir[u / ENTRIES] != 0
    ensures FrameOf(dir[u / ENTRIES]) in tables
    ensures var f := FrameOf(dir[u / ENTRIES]);
      var tables' := tables[f := tables[f][u % ENTRIES := e]];
      && DirOk(dir, tables') && EntryAt(dir, tables', u) == e
      && SameElsewhere(dir, tables, dir, tables', u)
  {
    assert u / ENTRIES < USER;
    var f := FrameOf(dir[u / ENTRIES]);
    var tables' := tables[f := tables[f][u % ENTRIES := e]];
    forall v | 0 <= v < USER_PAGES && v != u ensures EntryAt(dir, tables', v) == EntryAt(dir, tables, v) {
      PagesDiffer(u, v);
      assert v / ENTRIES < USER;
    }
  }

  lemma PagesDiffer(u: nat, v: nat)
    requires u != v
    ensures u / ENTRIES != v / ENTRIES || u % ENTRIES != v % ENTRIES
  {
  }

  class Directory {
    const frame: nat
    var dir: Table
    var tables: map<nat, Table>

    ghost predicate Valid()
      reads this
    {
      DirOk(dir, tables)
    }

    /** The frame that user page `u` is mapped to, if any. */
    ghost function Map(u: nat): Option<nat>
      requires u < USER_PAGES
      reads this
    {
      var e := EntryAt(dir, tables, u);
      if Present(e) then Some(FrameOf(e)) else None
    }

    /** No frame is used twice, by the mappings, the tables and the directory. */
    ghost predicate Sole()
      reads this
    {
      Unshared(dir, tables, frame)
    }

    ghost predicate Busy(f: nat)
      reads this
    {
      InUse(dir, tables, frame, f)
    }

    /** `pagedir_create`: a copy of a directory without user mappings. */
    constructor (page: nat, initial: Table)
      requires forall i | 0 <= i < USER :: initial[i] == 0
      ensures Valid() && forall u | 0 <= u < USER_PAGES :: Map(u) == None
      ensures dir == initial && frame == page && tables == map[]
      ensures Sole() && forall f :: Busy(f) <==> f == page
    {
      frame, dir, tables := page, initial, map[];
      new;
      forall u | 0 <= u < USER_PAGES ensures Map(u) == None {
        assert u / ENTRIES < USER;
      }
      EmptyUnshared(dir, tables, frame);
      assert FrameAt(dir, tables, frame, Self) == Some(page);
    }

    /** `lookup_page` for a page that needs a table: `page` is what the page
        allocator gives, 0 if nothing. */
    method EnsureTable(u: nat, page: nat) returns (ok: bool)
      requires Valid() && u < USER_PAGES && page !in tables
      modifies this
      ensures Valid() && ok == (old(dir)[u / ENTRIES] != 0 || page != 0)
      ensures forall v | 0 <= v < USER_PAGES :: EntryAt(dir, tables, v) == old(EntryAt(dir, tables, v))
      ensures ok ==> dir[u / ENTRIES] == if old(dir)[u / ENTRIES] != 0 then old(dir)[u / ENTRIES] else page * 4096 + 7
      ensures ok && old(dir)[u / ENTRIES] == 0 ==> (Sole() <==> old(Sole()) && !old(Busy(page)))
      ensures forall f :: Busy(f) <==> old(Busy(f)) || (ok && old(dir)[u / ENTRIES] == 0 && f == page)
      ensures !ok || old(dir)[u / ENTRIES] != 0 ==> dir == old(dir) && tables == old(tables)
      ensures tables.Keys == old(tables).Keys + if ok && old(dir)[u / ENTRIES] == 0 then {page} else {}
    {
      assert u / ENTRIES < USER;
      if dir[u / ENTRIES] == 0 {
        if page == 0 {
          return false;
        }
        AddTable(dir, tables, u, page);
        AddPlace(dir, tables, frame, u / ENTRIES, page);
        NewFrame(dir, tables, dir[u / ENTRIES := TableEntry(page)], tables[page := seq(ENTRIES, _ => 0)], frame,
                 TableOf(u / ENTRIES), page);
        EntryParts(page, true);
        dir, tables := dir[u / ENTRIES := TableEntry(page)], tables[page := seq(ENTRIES, _ => 0)];
      }
      ok := true;
    }

    /** `pagedir_set_page`: it fails only for want of a table, and then changes no
        mapping. Frames stay unshared if and only if the new ones were not in use;
        the code does not look. */
    method SetPage(u: nat, k: nat, writable: bool, page: nat) returns (ok: bool)
      requires Valid() && u < USER_PAGES && page !in tables && Map(u) == None
      modifies this
      ensures Valid() && ok == (old(dir)[u / ENTRIES] != 0 || page != 0)
      ensures ok ==> Map(u) == Some(k) && Writable(EntryAt(dir, tables, u)) == writable
      ensures ok ==> EntryAt(dir, tables, u) == k * 4096 + 1 + 4 + (if writable then 2 else 0)
      ensures !ok ==> EntryAt(dir, tables, u) == old(EntryAt(dir, tables, u))
      ensures SameElsewhere(old(dir), old(tables), dir, tables, u)
      ensures ok && old(dir)[u / ENTRIES] != 0 ==> (Sole() <==> old(Sole()) && !old(Busy(k)))
      ensures ok && old(dir)[u / ENTRIES] == 0 ==>
        (Sole() <==> old(Sole()) && !old(Busy(k)) && !old(Busy(page)) && k != page)
      ensures !ok ==> (Sole() <==> old(Sole()))
      ensures var grown := ok && old(dir)[u / ENTRIES] == 0;
        && tables.Keys == old(tables).Keys + (if grown then {page} else {})
        && forall f :: Busy(f) <==> old(Busy(f)) || (ok && f == k) || (grown && f == page)
    {
      ghost var dir0, tables0 := dir, tables;
      ok := EnsureTable(u, page);
      ghost var tables1, grown := tables, ok && dir0[u / ENTRIES] == 0;
      forall g ensures InUse(dir, tables1, frame, g) <==> InUse(dir0, tables0, frame, g) || (grown && g == page) {
        assert Busy(g) <==> old(Busy(g)) || (grown && g == page);
      }
      if ok {
        assert u / ENTRIES < USER;
        var f := FrameOf(dir[u / ENTRIES]);
        PutEntry(dir, tables, u, UserEntry(k, writable));
        EntryParts(k, writable);
        PutPlace(dir, tables, frame, u / ENTRIES, u % ENTRIES, UserEntry(k, writable));
        assert FrameAt(dir, tables, frame, PageOf(u / ENTRIES, u % ENTRIES)) == None by {
          assert !Present(EntryAt(dir, tables, u));
        }
        NewFrame(dir, tables, dir, tables[f := tables[f][u % ENTRIES := UserEntry(k, writable)]], frame,
                 PageOf(u / ENTRIES, u % ENTRIES), k);
        tables := tables[f := tables[f][u % ENTRIES := UserEntry(k, writable)]];
        assert f in tables1 && tables.Keys == tables1.Keys;
      }
      forall g ensures Busy(g) <==> old(Busy(g)) || (ok && g == k) || (grown && g == page) {
        assert InUse(dir, tables, frame, g) <==> InUse(dir, tables1, frame, g) || (ok && g == k);
      }
    }

    /** `pagedir_get_page`: the byte address that `address` is mapped to. */
    method GetPage(address: nat) returns (r: Option<nat>)
      requires Valid() && address < USER_PAGES * 4096
      ensures r == match Map(address / 4096)
        case Some(f) => Some(f * 4096 + address % 4096)
        case None => None
    {
      var u := address / 4096;
      assert u / ENTRIES < USER;
      var d := dir[u / ENTRIES];
      r := None;
      if d != 0 {
        var e := tables[FrameOf(d)][u % ENTRIES];
        if Present(e) {
          r := Some(FrameOf(e) * 4096 + address % 4096);
        }
      }
    }

    /** `install_page`, which looks before it maps. */
    method InstallPage(u: nat, k: nat, writable: bool, page: nat) returns (ok: bool)
      requires Valid() && u < USER_PAGES && page !in tables
      modifies this
      ensures Valid() && ok == (old(Map(u)) == None && (old(dir)[u / ENTRIES] != 0 || page != 0))
      ensures Map(u) == if ok then Some(k) else old(Map(u))
      ensures ok ==> EntryAt(dir, tables, u) == k * 4096 + 1 + 4 + (if writable then 2 else 0)
      ensures SameElsewhere(old(dir), old(tables), dir, tables, u)
      ensures old(tables).Keys <= tables.Keys <= old(tables).Keys + (if page == 0 then {} else {page})
      ensures forall f :: Busy(f) ==> old(Busy(f)) || f == k || (page != 0 && f == page)
      ensures old(Sole()) && !old(Busy(k)) && (page == 0 || (!old(Busy(page)) && k != page)) ==> Sole()
    {
      var present := GetPage(u * 4096);
      ok := false;
      if present == None {
        ok := SetPage(u, k, writable, page);
      }
    }

    /** `pagedir_clear_page`: the page is no longer mapped; the other bits of its
        entry stay. */
    method ClearPage(u: nat)
      requires Valid() && u < USER_PAGES
      modifies this
      ensures Valid() && Map(u) == None
      ensures SameElsewhere(old(dir), old(tables), dir, tables, u)
      ensures var e, e' := old(EntryAt(dir, tables, u)), EntryAt(dir, tables, u);
        e' / 2 == e / 2 && dir == old(dir)
      ensures old(Sole()) ==> Sole()
      ensures (forall f :: Busy(f) ==> old(Busy(f))) && tables.Keys == old(tables).Keys
    {
      assert u / ENTRIES < USER;
      var d := dir[u / ENTRIES];
      if d != 0 {
        var f := FrameOf(d);
        var e := tables[f][u % ENTRIES];
        if Present(e) {
          PutEntry(dir, tables, u, e - 1);
          PutPlace(dir, tables, frame, u / ENTRIES, u % ENTRIES, e - 1);
          if Sole() {
            LostFrame(dir, tables, dir, tables[f := tables[f][u % ENTRIES := e - 1]], frame,
                      PageOf(u / ENTRIES, u % ENTRIES));
          }
          tables := tables[f := tables[f][u % ENTRIES := e - 1]];
        }
      }
    }

    /** `pagedir_destroy`: the pages it frees, in order. */
    method Destroy() returns (freed: seq<nat>)
      requires Valid()
      ensures freed == Pages(dir, tables, USER) + [frame]
      ensures (forall f :: f in freed <==> Busy(f)) && (Once(freed) <==> Sole())
    {
      freed := [];
      var i := 0;
      while i < USER
        invariant i <= USER && freed == Pages(dir, tables, i)
      {
        if Present(dir[i]) {
          var f := FrameOf(dir[i]);
          var t := FreeTable(tables[f]);
          freed := freed + t + [f];
        }
        i := i + 1;
      }
      freed := freed + [frame];
      FreedOnce(dir, tables, frame);
    }
  }

  // --- from creation to destruction --------------------------------------------

  /** What a process does to its directory: `page` is what the page allocator has
      for a table, 0 if nothing. */
  datatype Request = Install(u: nat, k: nat, writable: bool, page: nat) | Clear(u: nat)

  predicate Sane(r: Request) { r.u < USER_PAGES }

  function Offered(r: Request): seq<nat> {
    if r.Clear? then [] else if r.page == 0 then [r.k] else [r.k, r.page]
  }

  /** The frames offered in a run of requests. */
  function AllOffered(rs: seq<Request>): seq<nat> {
    if rs == [] then [] else AllOffered(rs[..|rs| - 1]) + Offered(rs[|rs| - 1])
  }

  lemma {:induction false} OfferedPart(rs: seq<Request>, i: nat)
    requires i <= |rs| && Once(AllOffered(rs))
    ensures Once(AllOffered(rs[..i])) && forall f | f in AllOffered(rs[..i]) :: f in AllOffered(rs)
    decreases |rs|
  {
    if i == |rs| {
      assert rs[..i] == rs;
    } else {
      var init := rs[..|rs| - 1];
      OncePlus(AllOffered(init), Offered(rs[|rs| - 1]));
      OfferedPart(init, i);
      assert init[..i] == rs[..i];
    }
  }

  /** The next request offers frames that are new. */
  lemma OfferedNext(rs: seq<Request>, i: nat)
    requires i < |rs| && Once(AllOffered(rs))
    ensures AllOffered(rs[..i + 1]) == AllOffered(rs[..i]) + Offered(rs[i])
    ensures forall f | f in AllOffered(rs[..i + 1]) :: f in AllOffered(rs)
    ensures forall f | f in Offered(rs[i]) :: f !in AllOffered(rs[..i])
    ensures rs[i].Install? ==> rs[i].k != rs[i].page || rs[i].page == 0
  {
    OfferedPart(rs, i + 1);
    assert rs[..i + 1][..i] == rs[..i] && rs[..i + 1][i] == rs[i];
    OncePlus(AllOffered(rs[..i]), Offered(rs[i]));
    OfferedTwo(rs[i]);
  }

  lemma OfferedTwo(r: Request)
    requires Once(Offered(r))
    ensures r.Install? ==> r.k != r.page || r.page == 0
  {
    if r.Install? && r.page != 0 {
      assert Offered(r)[0] == r.k && Offered(r)[1] == r.page;
    }
  }

  /** What is in use has been offered. */
  ghost predicate Within(d: Directory, own: nat, taken: seq<nat>)
    reads d
  {
    && d.Valid() && d.Sole() && d.frame == own
    && (forall f | d.Busy(f) :: f == own || f in taken)
    && d.tables.Keys <= (set f | f in taken)
  }

  method Serve(d: Directory, r: Request, ghost own: nat, ghost taken: seq<nat>)
    requires Within(d, own, taken) && Sane(r) && 0 !in taken && own !in Offered(r)
    requires (forall f | f in Offered(r) :: f !in taken) && (r.Install? ==> r.k != r.page || r.page == 0)
    modifies d
    ensures Within(d, own, taken + Offered(r))
  {
    match r
    case Install(u, k, writable, page) =>
      assert k in Offered(r) && (page == 0 || page in Offered(r));
      var _ := d.InstallPage(u, k, writable, page);
    case Clear(u) =>
      d.ClearPage(u);
  }

  /** A directory from `pagedir_create` to `pagedir_destroy`: whatever is mapped and
      unmapped, and whether or not there is memory for tables, if no frame is
      offered twice then none is freed twice, and only these are freed. */
  method Lifetime(own: nat, initial: Table, rs: seq<Request>) returns (freed: seq<nat>)
    requires forall i | 0 <= i < USER :: initial[i] == 0
    requires forall r | r in rs :: Sane(r)
    requires Once(AllOffered(rs)) && own !in AllOffered(rs) && 0 !in AllOffered(rs)
    ensures Once(freed) && own in freed && forall f | f in freed :: f == own || f in AllOffered(rs)
  {
    var d := new Directory(own, initial);
    var i := 0;
    while i < |rs|
      invariant i <= |rs| && Within(d, own, AllOffered(rs[..i]))
    {
      OfferedNext(rs, i);
      Serve(d, rs[i], own, AllOffered(rs[..i]));
      i := i + 1;
    }
    assert rs[..i] == rs;
    freed := d.Destroy();
  }

  // --- what is freed ---------------------------------------------------------------

  /** The frames of the present entries below `n`. */
  function Frames(t: Table, n: nat): seq<nat>
    requires n <= ENTRIES
  {
    if n == 0 then []
    else Frames(t, n - 1) + if Present(t[n - 1]) then [FrameOf(t[n - 1])] else []
  }

  /** The inner loop of `pagedir_destroy`. */
  method FreeTable(t: Table) returns (freed: seq<nat>)
    ensures freed == Frames(t, ENTRIES)
  {
    freed := [];
    var j := 0;
    while j < ENTRIES
      invariant j <= ENTRIES && freed == Frames(t, j)
    {
      if Present(t[j]) {
        freed := freed + [FrameOf(t[j])];
      }
      j := j + 1;
    }
  }

  /** The frames and tables below directory entry `n`. */
  ghost function Pages(dir: Table, tables: map<nat, Table>, n: nat): seq<nat>
    requires DirOk(dir, tables) && n <= USER
  {
    if n == 0 then []
    else Pages(dir, tables, n - 1) + Below(dir, tables, n - 1)
  }

  ghost function Below(dir: Table, tables: map<nat, Table>, i: nat): seq<nat>
    requires DirOk(dir, tables) && i < USER
  {
    if Present(dir[i]) then Frames(tables[FrameOf(dir[i])], ENTRIES) + [FrameOf(dir[i])] else []
  }

  /** The places that use a frame: the directory itself, a table, an entry of a
      table. */
  datatype Place = Self | TableOf(i: nat) | PageOf(i: nat, k: nat)

  /** The frame that is used at a place, if any. */
  function FrameAt(dir: Table, tables: map<nat, Table>, frame: nat, p: Place): Option<nat> {
    match p
    case Self => Some(frame)
    case TableOf(i) => if i < USER && dir[i] != 0 then Some(FrameOf(dir[i])) else None
    case PageOf(i, k) =>
      if i < USER && k < ENTRIES && dir[i] != 0 && FrameOf(dir[i]) in tables then PageIn(tables[FrameOf(dir[i])], k)
      else None
  }

  function PageIn(t: Table, k: nat): Option<nat>
    requires k < ENTRIES
  {
    if Present(t[k]) then Some(FrameOf(t[k])) else None
  }

  ghost predicate InUse(dir: Table, tables: map<nat, Table>, frame: nat, f: nat) {
    exists p :: FrameAt(dir, tables, frame, p) == Some(f)
  }

  /** No frame is used twice. */
  ghost predicate Unshared(dir: Table, tables: map<nat, Table>, frame: nat) {
    forall p, q | FrameAt(dir, tables, frame, p).Some? &&
                  FrameAt(dir, tables, frame, p) == FrameAt(dir, tables, frame, q) ::
      p == q
  }

  // --- what keeps frames unshared ------------------------------------------------

  lemma EmptyUnshared(dir: Table, tables: map<nat, Table>, frame: nat)
    requires forall i | 0 <= i < USER :: dir[i] == 0
    ensures Unshared(dir, tables, frame)
  {
  }

  /** Place `p` gets frame `f` or none; all others are as before. */
  ghost predicate OneFrame(dir: Table, tables: map<nat, Table>, dir': Table, tables': map<nat, Table>, frame: nat,
                           p: Place, f: Option<nat>)
  {
    && FrameAt(dir', tables', frame, p) == f
    && forall q | q != p :: FrameAt(dir', tables', frame, q) == FrameAt(dir, tables, frame, q)
  }

  /** A place that was empty gets a frame. */
  lemma NewFrame(dir: Table, tables: map<nat, Table>, dir': Table, tables': map<nat, Table>, frame: nat, p: Place,
                 f: nat)
    requires OneFrame(dir, tables, dir', tables', frame, p, Some(f)) && FrameAt(dir, tables, frame, p) == None
    ensures Unshared(dir', tables', frame) <==> Unshared(dir, tables, frame) && !InUse(dir, tables, frame, f)
    ensures forall g :: InUse(dir', tables', frame, g) <==> InUse(dir, tables, frame, g) || g == f
  {
    forall g ensures InUse(dir', tables', frame, g) <==> InUse(dir, tables, frame, g) || g == f {
      if InUse(dir, tables, frame, g) {
        var q :| FrameAt(dir, tables, frame, q) == Some(g);
        assert FrameAt(dir', tables', frame, q) == Some(g);
      }
    }
    if Unshared(dir', tables', frame) {
      forall q, r | FrameAt(dir, tables, frame, q).Some? &&
                    FrameAt(dir, tables, frame, q) == FrameAt(dir, tables, frame, r)
        ensures q == r
      {
        assert FrameAt(dir', tables', frame, q) == FrameAt(dir', tables', frame, r);
      }
    }
  }

  /** A place loses its frame. */
  lemma LostFrame(dir: Table, tables: map<nat, Table>, dir': Table, tables': map<nat, Table>, frame: nat, p: Place)
    requires OneFrame(dir, tables, dir', tables', frame, p, None) && Unshared(dir, tables, frame)
    ensures Unshared(dir', tables', frame)
  {
    forall q, r | FrameAt(dir', tables', frame, q).Some? &&
                  FrameAt(dir', tables', frame, q) == FrameAt(dir', tables', frame, r)
      ensures q == r
    {
      assert FrameAt(dir, tables, frame, q) == FrameAt(dir, tables, frame, r);
    }
  }

  lemma AddPlace(dir: Table, tables: map<nat, Table>, frame: nat, i: nat, page: nat)
    requires DirOk(dir, tables) && i < USER && dir[i] == 0 && page !in tables
    ensures OneFrame(dir, tables, dir[i := TableEntry(page)], tables[page := seq(ENTRIES, _ => 0)], frame,
                     TableOf(i), Some(page))
  {
    var e, empty := TableEntry(page), seq(ENTRIES, _ => 0);
    EntryParts(page, true);
    forall k: nat | k < ENTRIES ensures PageIn(empty, k) == None {
      assert empty[k] == 0;
    }
    EmptyPlaces(dir, tables, frame, i, page, e, empty);
  }

  lemma EmptyPlaces(dir: Table, tables: map<nat, Table>, frame: nat, i: nat, page: nat, e: nat, empty: Table)
    requires DirOk(dir, tables) && i < USER && dir[i] == 0 && page !in tables && e != 0 && FrameOf(e) == page
    requires forall k: nat | k < ENTRIES :: PageIn(empty, k) == None
    ensures OneFrame(dir, tables, dir[i := e], tables[page := empty], frame, TableOf(i), Some(page))
  {
  }

  lemma PutPlace(dir: Table, tables: map<nat, Table>, frame: nat, i: nat, k: nat, e: nat)
    requires DirOk(dir, tables) && i < USER && k < ENTRIES && dir[i] != 0
    ensures var f := FrameOf(dir[i]);
      f in tables &&
      OneFrame(dir, tables, dir, tables[f := tables[f][k := e]], frame, PageOf(i, k),
               if Present(e) then Some(FrameOf(e)) else None)
  {
    var f := FrameOf(dir[i]);
    var tables' := tables[f := tables[f][k := e]];
    forall q | q != PageOf(i, k) ensures FrameAt(dir, tables', frame, q) == FrameAt(dir, tables, frame, q) {
      if q.PageOf? && q.i < USER && dir[q.i] != 0 && q.i != i {
        assert q.i < i || i < q.i;
      }
    }
  }

  // --- what is freed, and how often ------------------------------------------------

  lemma {:induction false} FramesHas(t: Table, n: nat, f: nat)
    requires n <= ENTRIES
    ensures f in Frames(t, n) <==> exists k: nat :: k < n && PageIn(t, k) == Some(f)
  {
    if n > 0 {
      FramesHas(t, n - 1, f);
      assert PageIn(t, n - 1) == Some(f) <==> Present(t[n - 1]) && FrameOf(t[n - 1]) == f;
    }
  }

  /** A place below directory entry `n`. */
  predicate Inside(p: Place, n: nat) { !p.Self? && p.i < n }

  /** Frame `f` is used by table `i` or in it. */
  ghost predicate UsedIn(dir: Table, tables: map<nat, Table>, frame: nat, i: nat, f: nat) {
    exists p: Place :: !p.Self? && p.i == i && FrameAt(dir, tables, frame, p) == Some(f)
  }

  /** Frame `f` is used below directory entry `n`. */
  ghost predicate UsedBelow(dir: Table, tables: map<nat, Table>, frame: nat, n: nat, f: nat) {
    exists p :: Inside(p, n) && FrameAt(dir, tables, frame, p) == Some(f)
  }

  lemma UsedMore(dir: Table, tables: map<nat, Table>, frame: nat, n: nat, f: nat)
    ensures UsedBelow(dir, tables, frame, n + 1, f) <==>
      UsedBelow(dir, tables, frame, n, f) || UsedIn(dir, tables, frame, n, f)
  {
    if UsedBelow(dir, tables, frame, n + 1, f) {
      var p :| Inside(p, n + 1) && FrameAt(dir, tables, frame, p) == Some(f);
      assert Inside(p, n) || p.i == n;
    }
    if UsedBelow(dir, tables, frame, n, f) {
      var p :| Inside(p, n) && FrameAt(dir, tables, frame, p) == Some(f);
      assert Inside(p, n + 1);
    }
    if UsedIn(dir, tables, frame, n, f) {
      var p: Place :| !p.Self? && p.i == n && FrameAt(dir, tables, frame, p) == Some(f);
      assert Inside(p, n + 1);
    }
  }

  lemma TableUses(dir: Table, tables: map<nat, Table>, frame: nat, i: nat, f: nat)
    requires DirOk(dir, tables) && i < USER && dir[i] != 0
    ensures UsedIn(dir, tables, frame, i, f) <==>
      f == FrameOf(dir[i]) || exists k: nat :: k < ENTRIES && PageIn(tables[FrameOf(dir[i])], k) == Some(f)
  {
    var t := tables[FrameOf(dir[i])];
    if UsedIn(dir, tables, frame, i, f) {
      var p: Place :| !p.Self? && p.i == i && FrameAt(dir, tables, frame, p) == Some(f);
      if p.PageOf? {
        assert PageIn(t, p.k) == Some(f);
      }
    }
    if k: nat :| k < ENTRIES && PageIn(t, k) == Some(f) {
      assert FrameAt(dir, tables, frame, PageOf(i, k)) == Some(f);
    }
    if f == FrameOf(dir[i]) {
      assert FrameAt(dir, tables, frame, TableOf(i)) == Some(f);
    }
  }

  lemma BelowHas(dir: Table, tables: map<nat, Table>, frame: nat, i: nat, f: nat)
    requires DirOk(dir, tables) && i < USER
    ensures f in Below(dir, tables, i) <==> UsedIn(dir, tables, frame, i, f)
  {
    if dir[i] != 0 {
      FramesHas(tables[FrameOf(dir[i])], ENTRIES, f);
      TableUses(dir, tables, frame, i, f);
    }
  }

  lemma NoneBelow(dir: Table, tables: map<nat, Table>, frame: nat, f: nat)
    ensures !UsedBelow(dir, tables, frame, 0, f)
  {
    assert forall p :: !Inside(p, 0);
  }

  lemma PagesMore(dir: Table, tables: map<nat, Table>, n: nat) returns (done: seq<nat>, more: seq<nat>, all: seq<nat>)
    requires DirOk(dir, tables) && n < USER
    ensures done == Pages(dir, tables, n) && more == Below(dir, tables, n) && all == Pages(dir, tables, n + 1)
    ensures all == done + more
  {
    done, more, all := Pages(dir, tables, n), Below(dir, tables, n), Pages(dir, tables, n + 1);
  }

  lemma PagesHasStep(dir: Table, tables: map<nat, Table>, frame: nat, n: nat, f: nat, done: seq<nat>, more: seq<nat>,
                     all: seq<nat>)
    requires DirOk(dir, tables) && n < USER && more == Below(dir, tables, n) && all == done + more
    requires f in done <==> UsedBelow(dir, tables, frame, n, f)
    ensures f in all <==> UsedBelow(dir, tables, frame, n + 1, f)
  {
    BelowHas(dir, tables, frame, n, f);
    UsedMore(dir, tables, frame, n, f);
  }

  /** Everything in use is freed, and nothing else. */
  lemma {:induction false} PagesHas(dir: Table, tables: map<nat, Table>, frame: nat, n: nat, f: nat)
    requires DirOk(dir, tables) && n <= USER
    ensures f in Pages(dir, tables, n) <==> UsedBelow(dir, tables, frame, n, f)
  {
    if n > 0 {
      PagesHas(dir, tables, frame, n - 1, f);
      var done, more, all := PagesMore(dir, tables, n - 1);
      PagesHasStep(dir, tables, frame, n - 1, f, done, more, all);
    } else {
      NoneBelow(dir, tables, frame, f);
    }
  }

  lemma {:induction false} FramesOnce(t: Table, n: nat)
    requires n <= ENTRIES
    ensures Once(Frames(t, n)) <==>
      forall k: nat, l: nat | k < l < n && PageIn(t, k).Some? :: PageIn(t, k) != PageIn(t, l)
  {
    if n > 0 {
      FramesOnce(t, n - 1);
      var done, last := Frames(t, n - 1), PageIn(t, n - 1);
      if last.Some? {
        FramesHas(t, n - 1, last.value);
        OncePlus(done, [last.value]);
        assert Frames(t, n) == done + [last.value];
        assert last.value in done <==> !(forall k: nat | k < n - 1 && PageIn(t, k).Some? :: PageIn(t, k) != last);
      } else {
        assert Frames(t, n) == done;
      }
    }
  }

  /** No frame is used twice in table `i`. */
  ghost predicate ApartIn(dir: Table, tables: map<nat, Table>, frame: nat, i: nat) {
    forall p: Place, q: Place | !p.Self? && !q.Self? && p.i == q.i == i &&
      FrameAt(dir, tables, frame, p).Some? && FrameAt(dir, tables, frame, p) == FrameAt(dir, tables, frame, q) :: p == q
  }

  lemma BelowOnce(dir: Table, tables: map<nat, Table>, frame: nat, i: nat)
    requires DirOk(dir, tables) && i < USER
    ensures Once(Below(dir, tables, i)) <==> ApartIn(dir, tables, frame, i)
  {
    if dir[i] != 0 {
      var f := FrameOf(dir[i]);
      var t := tables[f];
      FramesOnce(t, ENTRIES);
      FramesHas(t, ENTRIES, f);
      OncePlus(Frames(t, ENTRIES), [f]);
      assert forall k: nat | k < ENTRIES :: FrameAt(dir, tables, frame, PageOf(i, k)) == PageIn(t, k);
      assert FrameAt(dir, tables, frame, TableOf(i)) == Some(f);
      if ApartIn(dir, tables, frame, i) {
        forall k: nat, l: nat | k < l < ENTRIES && PageIn(t, k).Some? ensures PageIn(t, k) != PageIn(t, l) {
          assert PageOf(i, k) != PageOf(i, l);
        }
      }
      if Once(Below(dir, tables, i)) {
        BelowApart(dir, tables, frame, i);
      }
    } else {
      assert forall p: Place | !p.Self? && p.i == i :: FrameAt(dir, tables, frame, p) == None;
    }
  }

  lemma BelowApart(dir: Table, tables: map<nat, Table>, frame: nat, i: nat)
    requires DirOk(dir, tables) && i < USER && dir[i] != 0
    requires var t := tables[FrameOf(dir[i])];
      && (forall k: nat, l: nat | k < l < ENTRIES && PageIn(t, k).Some? :: PageIn(t, k) != PageIn(t, l))
      && (forall k: nat | k < ENTRIES :: PageIn(t, k) != Some(FrameOf(dir[i])))
    ensures ApartIn(dir, tables, frame, i)
  {
    var t := tables[FrameOf(dir[i])];
    forall p: Place, q: Place | !p.Self? && !q.Self? && p.i == q.i == i &&
      FrameAt(dir, tables, frame, p).Some? && FrameAt(dir, tables, frame, p) == FrameAt(dir, tables, frame, q)
      ensures p == q
    {
      if p.PageOf? && q.PageOf? {
        assert PageIn(t, p.k) == PageIn(t, q.k);
        assert p.k < q.k || q.k < p.k || p.k == q.k;
      }
    }
  }

  /** No frame is used twice below directory entry `n`. */
  ghost predicate Apart(dir: Table, tables: map<nat, Table>, frame: nat, n: nat) {
    forall p, q | Inside(p, n) && Inside(q, n) &&
      FrameAt(dir, tables, frame, p).Some? && FrameAt(dir, tables, frame, p) == FrameAt(dir, tables, frame, q) :: p == q
  }

  /** No frame that table `n` uses is used below it. */
  ghost predicate NewIn(dir: Table, tables: map<nat, Table>, frame: nat, n: nat) {
    forall f: nat | UsedIn(dir, tables, frame, n, f) :: !UsedBelow(dir, tables, frame, n, f)
  }

  lemma ApartMore(dir: Table, tables: map<nat, Table>, frame: nat, n: nat)
    ensures Apart(dir, tables, frame, n + 1) <==>
      Apart(dir, tables, frame, n) && ApartIn(dir, tables, frame, n) && NewIn(dir, tables, frame, n)
  {
    if Apart(dir, tables, frame, n + 1) {
      forall f: nat | UsedIn(dir, tables, frame, n, f) ensures !UsedBelow(dir, tables, frame, n, f) {
        var p: Place :| !p.Self? && p.i == n && FrameAt(dir, tables, frame, p) == Some(f);
        forall q | Inside(q, n) ensures FrameAt(dir, tables, frame, q) != Some(f) {
          assert Inside(p, n + 1) && Inside(q, n + 1);
        }
      }
    }
    if Apart(dir, tables, frame, n) && ApartIn(dir, tables, frame, n) && NewIn(dir, tables, frame, n) {
      forall p, q | Inside(p, n + 1) && Inside(q, n + 1) &&
        FrameAt(dir, tables, frame, p).Some? && FrameAt(dir, tables, frame, p) == FrameAt(dir, tables, frame, q)
        ensures p == q
      {
        var f := FrameAt(dir, tables, frame, p).value;
        assert p.i == n ==> UsedIn(dir, tables, frame, n, f);
        assert q.i == n ==> UsedIn(dir, tables, frame, n, f);
        assert Inside(p, n) ==> UsedBelow(dir, tables, frame, n, f);
        assert Inside(q, n) ==> UsedBelow(dir, tables, frame, n, f);
      }
    }
  }

  lemma NewInIs(dir: Table, tables: map<nat, Table>, frame: nat, n: nat)
    requires DirOk(dir, tables) && n < USER
    ensures NewIn(dir, tables, frame, n) <==> forall f | f in Below(dir, tables, n) :: f !in Pages(dir, tables, n)
  {
    forall f: nat
      ensures f in Pages(dir, tables, n) <==> UsedBelow(dir, tables, frame, n, f)
      ensures f in Below(dir, tables, n) <==> UsedIn(dir, tables, frame, n, f)
    {
      PagesHas(dir, tables, frame, n, f);
      BelowHas(dir, tables, frame, n, f);
    }
  }

  lemma PagesOnceStep(dir: Table, tables: map<nat, Table>, frame: nat, n: nat, done: seq<nat>, more: seq<nat>)
    requires DirOk(dir, tables) && n < USER
    requires done == Pages(dir, tables, n) && more == Below(dir, tables, n)
    requires Once(done) <==> Apart(dir, tables, frame, n)
    ensures Once(done + more) <==> Apart(dir, tables, frame, n + 1)
  {
    BelowOnce(dir, tables, frame, n);
    OncePlus(done, more);
    NewInIs(dir, tables, frame, n);
    ApartMore(dir, tables, frame, n);
  }

  lemma {:induction false} PagesOnce(dir: Table, tables: map<nat, Table>, frame: nat, n: nat)
    requires DirOk(dir, tables) && n <= USER
    ensures Once(Pages(dir, tables, n)) <==> Apart(dir, tables, frame, n)
  {
    if n > 0 {
      PagesOnce(dir, tables, frame, n - 1);
      PagesOnceStep(dir, tables, frame, n - 1, Pages(dir, tables, n - 1), Below(dir, tables, n - 1));
    }
  }

  /** Destroying a directory frees every mapped frame, every table and the
      directory; it frees each exactly once if and only if no frame is used
      twice. */
  lemma FreedOnce(dir: Table, tables: map<nat, Table>, frame: nat)
    requires DirOk(dir, tables)
    ensures forall f :: f in Pages(dir, tables, USER) + [frame] <==> InUse(dir, tables, frame, f)
    ensures Once(Pages(dir, tables, USER) + [frame]) <==> Unshared(dir, tables, frame)
  {
    PagesOnce(dir, tables, frame, USER);
    PagesHas(dir, tables, frame, USER, frame);
    OncePlus(Pages(dir, tables, USER), [frame]);
    forall f ensures f in Pages(dir, tables, USER) + [frame] <==> InUse(dir, tables, frame, f) {
      PagesHas(dir, tables, frame, USER, f);
      WholeUses(dir, tables, frame, f);
    }
    WholeApart(dir, tables, frame);
  }

  lemma WholeUses(dir: Table, tables: map<nat, Table>, frame: nat, f: nat)
    ensures InUse(dir, tables, frame, f) <==> f == frame || UsedBelow(dir, tables, frame, USER, f)
  {
    assert FrameAt(dir, tables, frame, Self) == Some(frame);
    assert forall p | FrameAt(dir, tables, frame, p).Some? :: p.Self? || Inside(p, USER);
  }

  lemma WholeApart(dir: Table, tables: map<nat, Table>, frame: nat)
    ensures Unshared(dir, tables, frame) <==>
      && Apart(dir, tables, frame, USER)
      && forall p | Inside(p, USER) :: FrameAt(dir, tables, frame, p) != Some(frame)
  {
    assert FrameAt(dir, tables, frame, Self) == Some(frame);
    assert forall p | FrameAt(dir, tables, frame, p).Some? :: p.Self? || Inside(p, USER);
  }
}
