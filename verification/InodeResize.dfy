/** Growing, shrinking and rolling back the sectors of a file. */
module InodeResize {
  import opened Common
  import opened Sectors
  import opened BlockTree
  import opened BufferCache
  import opened FreeMap
  import Bitmap
  import opened Losses

  /** The cache and the free map speak about the same device, and sector 0 is
      never free. */
  ghost predicate Mounted(c: Cache, m: SectorMap)
    reads c, m, m.store, m.store.words
  {
    && c.Valid() && m.Valid() && |m.bits| == |c.disk| && 0 < |m.bits| <= 0x1_0000_0000
    && m.bits[0]
  }

  /** `add_sector_to_file`: a free sector is taken and zeroed. */
  method AddSector(c: Cache, m: SectorMap) returns (ok: bool, s: Word)
    requires Mounted(c, m)
    modifies c, m, m.store.words
    ensures Mounted(c, m) && |c.disk| == old(|c.disk|) && c.mark == old(c.mark)
    ensures ok ==>
      && s < |m.bits| && !old(m.bits)[s]
      && m.bits == old(m.bits)[s := true] && c.flat == old(c.flat)[s := Zeros()]
    ensures !ok ==> m.bits == old(m.bits) && c.flat == old(c.flat)
    ensures (forall r | 0 <= r < |old(m.bits)| :: old(m.bits)[r]) ==> !ok
    ensures m.writable && !ok ==> Free(m.bits) == {}
  {
    var r: nat;
    ok, r := m.Allocate(1);
    s := 0;
    forall q: nat ensures Bitmap.IsRun(old(m.bits), q, 1, false) <==> q < |old(m.bits)| && !old(m.bits)[q] {
      OneBitRun(old(m.bits), q, false);
    }
    if ok {
      OneBitRun(old(m.bits), r, true);
      s := r;
      c.WriteBlock(s, Zeros());
    } else {
      assert m.writable ==> forall q | q in Free(m.bits) :: !Bitmap.IsRun(m.bits, q, 1, false);
    }
  }

  /** `cache_read` and `cache_write`, which leave the map alone. */
  method ReadSector(c: Cache, m: SectorMap, s: nat) returns (b: Block)
    requires Mounted(c, m) && s < |c.disk|
    modifies c
    ensures Mounted(c, m) && |c.disk| == old(|c.disk|) && c.mark == old(c.mark)
    ensures c.flat == old(c.flat) && b == c.flat[s]
  {
    b := c.ReadBlock(s);
  }

  method WriteSector(c: Cache, m: SectorMap, s: nat, b: Block)
    requires Mounted(c, m) && s < |c.disk|
    modifies c
    ensures Mounted(c, m) && |c.disk| == old(|c.disk|) && c.mark == old(c.mark) && c.flat == old(c.flat)[s := b]
  {
    c.WriteBlock(s, b);
  }

  method FreeSector(m: SectorMap, s: nat)
    requires m.Valid() && s < |m.bits| && m.bits[s]
    modifies m, m.store.words
    ensures m.Valid() && m.bits == old(m.bits)[s := false]
  {
    OneBitRun(m.bits, s, true);
    m.Release(s, 1);
  }

  /** The tables of the file are not touched. */
  ghost predicate TablesKept(flat: seq<Block>, flat': seq<Block>, p: Slots)
    requires |flat'| == |flat|
  {
    forall a | 0 <= a < 129 && 0 < p[a] < |flat| :: flat'[p[a]] == flat[p[a]]
  }

  ghost predicate LeafIs(p: Slots, i: nat, t: Table)
    requires i < NUM_POINTERS
  {
    forall j | 0 <= j < NUM_POINTERS :: t[j] == p[Data(i, j)]
  }

  /** `q` differs from `p` only in the data slots of leaf `i`. */
  ghost predicate OnlyLeaf(p: Slots, q: Slots, i: nat) {
    forall a | 0 <= a < SLOTS && !(Data(i, 0) <= a < Data(i + 1, 0)) :: q[a] == p[a]
  }

  /** The inner loop has dealt with the first `j` data slots of leaf `i`. */
  ghost predicate LeafInv(x: Start, y: Now, p: Slots, flat: seq<Block>, table: Table, leaf: Table, i: nat, j: nat)
    requires i < NUM_POINTERS && j <= NUM_POINTERS
  {
    && Progress(x, y) && |flat| == |y.flat|
    && OnlyLeaf(p, y.p, i) && LeafIs(y.p, i, leaf) && LeafIs(x.p, i, table)
    && TablesKept(flat, y.flat, p)
    && ChangedUpTo(x, y.p, LEAF_SPAN * i + SECTOR_SIZE * j)
    && (forall k | j <= k < NUM_POINTERS :: leaf[k] == table[k])
    && (forall k | 0 <= k < j :: leaf[k] != 0 <==> Need(Data(i, k), x.size))
  }

  lemma LeafSkip(x: Start, y: Now, p: Slots, flat: seq<Block>, table: Table, leaf: Table, i: nat, j: nat)
    requires i < NUM_POINTERS && j < NUM_POINTERS
    requires LeafInv(x, y, p, flat, table, leaf, i, j)
    requires leaf[j] != 0 <==> Need(Data(i, j), x.size)
    ensures LeafInv(x, y, p, flat, table, leaf, i, j + 1)
  {
  }

  lemma FreeKeepsTables(flat: seq<Block>, y: Now, p: Slots, s: Word)
    requires |flat| == |y.flat| == |y.bits| && TreeOk(y.bits, y.p) && TablesKept(flat, y.flat, p)
    requires s < |y.bits| && !y.bits[s]
    requires forall b | 0 <= b < 129 :: y.p[b] == p[b]
    ensures TablesKept(flat, y.flat[s := Zeros()], p)
  {
    assert forall b | 0 <= b < 129 && 0 < p[b] < |flat| :: y.p[b] == p[b] && p[b] != s;
  }

  lemma LeafSet(x: Start, q: Slots, p: Slots, leaf: Table, i: nat, j: nat, s: Word)
    requires i < NUM_POINTERS && j < NUM_POINTERS
    requires OnlyLeaf(p, q, i) && LeafIs(q, i, leaf) && ChangedUpTo(x, q, LEAF_SPAN * i + SECTOR_SIZE * j)
    ensures Data(i, j) < SLOTS
    ensures OnlyLeaf(p, q[Data(i, j) := s], i) && LeafIs(q[Data(i, j) := s], i, leaf[j := s])
    ensures ChangedUpTo(x, q[Data(i, j) := s], LEAF_SPAN * i + SECTOR_SIZE * (j + 1))
  {
  }

  lemma LeafFill(x: Start, y: Now, p: Slots, flat: seq<Block>, table: Table, leaf: Table, i: nat, j: nat, s: Word)
    requires i < NUM_POINTERS && j < NUM_POINTERS
    requires LeafInv(x, y, p, flat, table, leaf, i, j)
    requires leaf[j] == 0 && Need(Data(i, j), x.size) && s < |y.bits| && !y.bits[s]
    ensures Data(i, j) < SLOTS && s < |y.flat|
    ensures LeafInv(x, Filled(y, Data(i, j), s), p, flat, table, leaf[j := s], i, j + 1)
  {
    var a := Data(i, j);
    DataPos(i, j);
    NothingReleased(x, y, LEAF_SPAN * i + SECTOR_SIZE * j);
    FillSlot(x, y, a, s);
    FreeKeepsTables(flat, y, p, s);
    LeafSet(x, y.p, p, leaf, i, j, s);
  }

  lemma LeafEmpty(x: Start, y: Now, p: Slots, flat: seq<Block>, table: Table, leaf: Table, i: nat, j: nat)
    requires i < NUM_POINTERS && j < NUM_POINTERS
    requires LeafInv(x, y, p, flat, table, leaf, i, j)
    requires leaf[j] != 0 && !Need(Data(i, j), x.size)
    ensures Data(i, j) < SLOTS && y.p[Data(i, j)] == leaf[j] < |y.bits| && y.bits[leaf[j]]
    ensures LeafInv(x, Emptied(y, Data(i, j)), p, flat, table, leaf[j := 0], i, j + 1)
  {
    EmptySlot(x, y, Data(i, j));
    LeafSet(x, y.p, p, leaf, i, j, 0);
  }

  /** One turn of the inner loop, for a slot that needs a sector. */
  method FillOne(c: Cache, m: SectorMap, table: Table, leaf: Table, i: nat, j: nat,
                 ghost x: Start, ghost y: Now, ghost p: Slots, ghost flat: seq<Block>)
    returns (ok: bool, s: Word, ghost y': Now)
    requires Mounted(c, m) && i < NUM_POINTERS && j < NUM_POINTERS
    requires y.flat == c.flat && y.bits == m.bits
    requires LeafInv(x, y, p, flat, table, leaf, i, j)
    requires leaf[j] == 0 && Need(Data(i, j), x.size)
    modifies c, m, m.store.words
    ensures Mounted(c, m) && |c.disk| == old(|c.disk|) && c.mark == old(c.mark)
    ensures y'.flat == c.flat && y'.bits == m.bits
    ensures ok ==> LeafInv(x, y', p, flat, table, leaf[j := s], i, j + 1)
    ensures !ok ==> y' == y && (m.writable ==> Free(m.bits) == {})
  {
    ok, s := AddSector(c, m);
    y' := y;
    if ok {
      LeafFill(x, y, p, flat, table, leaf, i, j, s);
      y' := Filled(y, Data(i, j), s);
    }
  }

  /** One turn of the inner loop, for a slot that must give its sector back. */
  method EmptyOne(m: SectorMap, table: Table, leaf: Table, i: nat, j: nat,
                  ghost x: Start, ghost y: Now, ghost p: Slots, ghost flat: seq<Block>)
    returns (ghost y': Now)
    requires m.Valid() && i < NUM_POINTERS && j < NUM_POINTERS && y.bits == m.bits
    requires LeafInv(x, y, p, flat, table, leaf, i, j)
    requires leaf[j] != 0 && !Need(Data(i, j), x.size)
    modifies m, m.store.words
    ensures m.Valid() && |m.bits| == old(|m.bits|) && |m.bits| > 0 && m.bits[0]
    ensures y'.flat == y.flat && y'.bits == m.bits
    ensures LeafInv(x, y', p, flat, table, leaf[j := 0], i, j + 1)
  {
    LeafEmpty(x, y, p, flat, table, leaf, i, j);
    FreeSector(m, leaf[j]);
    y' := Emptied(y, Data(i, j));
  }

  lemma DataPos(i: nat, j: nat)
    ensures Pos(Data(i, j)) == LEAF_SPAN * i + SECTOR_SIZE * j
  {
  }

  /** One turn of the inner loop. */
  method ResizeSlot(c: Cache, m: SectorMap, table: Table, leaf: Table, i: nat, j: nat, size: nat,
                    ghost x: Start, ghost y: Now, ghost p: Slots, ghost flat: seq<Block>)
    returns (ok: bool, s: Word, ghost y': Now)
    requires Mounted(c, m) && i < NUM_POINTERS && j < NUM_POINTERS && x.size == size
    requires y.flat == c.flat && y.bits == m.bits
    requires LeafInv(x, y, p, flat, table, leaf, i, j)
    modifies c, m, m.store.words
    ensures Mounted(c, m) && |c.disk| == old(|c.disk|) && c.mark == old(c.mark)
    ensures y'.flat == c.flat && y'.bits == m.bits
    ensures ok ==> LeafInv(x, y', p, flat, table, leaf[j := s], i, j + 1)
    ensures !ok ==> y' == y && Need(Data(i, j), size) && leaf[j] == 0
    ensures !ok && m.writable ==> Free(m.bits) == {}
  {
    ok, s, y' := true, leaf[j], y;
    DataPos(i, j);
    if size > LEAF_SPAN * i + SECTOR_SIZE * j && leaf[j] == 0 {
      ok, s, y' := FillOne(c, m, table, leaf, i, j, x, y, p, flat);
    } else if size <= LEAF_SPAN * i + SECTOR_SIZE * j && leaf[j] != 0 {
      y' := EmptyOne(m, table, leaf, i, j, x, y, p, flat);
      s := 0;
    } else {
      LeafSkip(x, y, p, flat, table, leaf, i, j);
      assert leaf[j := s] == leaf;
    }
  }

  /** The inner loop: the data sectors of second-level table `i`. */
  method ResizeLeaf(c: Cache, m: SectorMap, table: Table, i: nat, size: nat, ghost x: Start, ghost y: Now)
    returns (ok: bool, leaf: Table, ghost y': Now, ghost j: nat)
    requires Mounted(c, m) && i < NUM_POINTERS && x.size == size
    requires y.flat == c.flat && y.bits == m.bits
    requires LeafInv(x, y, y.p, y.flat, table, table, i, 0)
    modifies c, m, m.store.words
    ensures Mounted(c, m) && |c.disk| == old(|c.disk|) && c.mark == old(c.mark)
    ensures y'.flat == c.flat && y'.bits == m.bits
    ensures j <= NUM_POINTERS && LeafInv(x, y', y.p, y.flat, table, leaf, i, j)
    ensures ok ==> j == NUM_POINTERS
    ensures !ok ==> j < NUM_POINTERS && Need(Data(i, j), size) && leaf[j] == 0
    ensures !ok && m.writable ==> Free(m.bits) == {}
  {
    leaf, y' := table, y;
    var k := 0;
    while k < NUM_POINTERS
      invariant k <= NUM_POINTERS
      invariant Mounted(c, m) && |c.disk| == old(|c.disk|) && c.mark == old(c.mark)
      invariant y'.flat == c.flat && y'.bits == m.bits
      invariant LeafInv(x, y', y.p, y.flat, table, leaf, i, k)
    {
      var s;
      ok, s, y' := ResizeSlot(c, m, table, leaf, i, k, size, x, y', y.p, y.flat);
      if !ok {
        j := k;
        return;
      }
      leaf := leaf[k := s];
      k := k + 1;
    }
    ok, j := true, k;
  }

  // --- the outer loop ----------------------------------------------------

  /** The second-level tables on the device hold the data slots. */
  ghost predicate LeavesRep(y: Now) {
    forall i, j | 0 <= i < NUM_POINTERS && 0 <= j < NUM_POINTERS ::
      y.p[Data(i, j)] == TableAt(y.flat, y.p[Leaf(i)])[j]
  }

  /** The first-level table on the device is still the one from the start. */
  ghost predicate RootStale(x: Start, y: Now) {
    forall i | 0 <= i < NUM_POINTERS :: TableAt(y.flat, y.p[0])[i] == x.p[Leaf(i)]
  }

  /** Leaf slot `i` and its data slots have their final state. */
  ghost predicate LeafDone(p: Slots, size: nat, i: nat)
    requires i < NUM_POINTERS
  {
    && (p[Leaf(i)] != 0 <==> Need(Leaf(i), size))
    && forall j | 0 <= j < NUM_POINTERS :: p[Data(i, j)] != 0 <==> Need(Data(i, j), size)
  }

  /** Leaf slot `i` and its data slots have not been looked at. */
  ghost predicate LeafFresh(x: Start, p: Slots, i: nat)
    requires i < NUM_POINTERS
  {
    && p[Leaf(i)] == x.p[Leaf(i)]
    && forall j | 0 <= j < NUM_POINTERS :: p[Data(i, j)] == x.p[Data(i, j)]
  }

  /** Leaves before `i` are done, leaves after `i` have not been looked at. */
  ghost predicate LeavesAround(x: Start, p: Slots, i: nat) {
    && (forall k | 0 <= k < i && k < NUM_POINTERS :: LeafDone(p, x.size, k))
    && (forall k | i < k < NUM_POINTERS :: LeafFresh(x, p, k))
  }

  lemma AroundKept(x: Start, p: Slots, q: Slots, i: nat)
    requires i < NUM_POINTERS && LeavesAround(x, p, i)
    requires forall a | 0 <= a < SLOTS && a != Leaf(i) && !(Data(i, 0) <= a < Data(i + 1, 0)) :: q[a] == p[a]
    ensures LeavesAround(x, q, i)
  {
    forall k | 0 <= k < NUM_POINTERS && k != i
      ensures q[Leaf(k)] == p[Leaf(k)]
      ensures forall j | 0 <= j < NUM_POINTERS :: q[Data(k, j)] == p[Data(k, j)]
      ensures k < i ==> LeafDone(q, x.size, k)
      ensures k > i ==> LeafFresh(x, q, k)
    {
      assert k < i ==> LeafDone(p, x.size, k);
      assert k > i ==> LeafFresh(x, p, k);
    }
  }

  ghost predicate TabIs(p: Slots, tab: Table) {
    forall i | 0 <= i < NUM_POINTERS :: tab[i] == p[Leaf(i)]
  }

  ghost predicate OuterInv(x: Start, y: Now, tab: Table, n: nat) {
    && Progress(x, y) && y.p[0] != 0 && TabIs(y.p, tab)
    && LeavesRep(y) && RootStale(x, y)
    && ChangedUpTo(x, y.p, LEAF_SPAN * n)
    && (forall i | 0 <= i < n && i < NUM_POINTERS :: LeafDone(y.p, x.size, i))
    && (forall i | n <= i < NUM_POINTERS :: LeafFresh(x, y.p, i))
  }

  lemma TableElsewhere(flat: seq<Block>, s: nat, b: Block, r: nat)
    requires s < |flat| && r != s
    ensures TableAt(flat[s := b], r) == TableAt(flat, r)
  {
  }

  /** Second-level table `i` exists if it is needed; its data slots have not
      been looked at. */
  ghost predicate MidInv(x: Start, y: Now, tab: Table, i: nat)
    requires i < NUM_POINTERS
  {
    && Progress(x, y) && y.p[0] != 0 && TabIs(y.p, tab)
    && LeavesRep(y) && RootStale(x, y)
    && ChangedUpTo(x, y.p, LEAF_SPAN * i)
    && LeavesAround(x, y.p, i)
    && (forall j | 0 <= j < NUM_POINTERS :: y.p[Data(i, j)] == x.p[Data(i, j)])
    && (Need(Leaf(i), x.size) ==> tab[i] != 0)
  }

  /** And now its data slots have their final state. */
  ghost predicate LateInv(x: Start, y: Now, tab: Table, i: nat)
    requires i < NUM_POINTERS
  {
    && Progress(x, y) && y.p[0] != 0 && TabIs(y.p, tab)
    && LeavesRep(y) && RootStale(x, y)
    && ChangedUpTo(x, y.p, LEAF_SPAN * (i + 1))
    && LeavesAround(x, y.p, i)
    && (forall j | 0 <= j < NUM_POINTERS :: y.p[Data(i, j)] != 0 <==> Need(Data(i, j), x.size))
    && (Need(Leaf(i), x.size) ==> tab[i] != 0)
  }

  lemma AddLeaves(x: Start, y: Now, i: nat, s: Word)
    requires i < NUM_POINTERS && y.p[Leaf(i)] == 0 && 0 < s < |y.flat| && s < |y.bits|
    requires LeavesRep(y) && RootStale(x, y) && (forall a | 0 <= a < 129 :: y.p[a] != s)
    ensures LeavesRep(Filled(y, Leaf(i), s)) && RootStale(x, Filled(y, Leaf(i), s))
  {
    var y' := Filled(y, Leaf(i), s);
    ZerosAreNoPointers();
    forall k, j | 0 <= k < NUM_POINTERS && 0 <= j < NUM_POINTERS
      ensures y'.p[Data(k, j)] == TableAt(y'.flat, y'.p[Leaf(k)])[j]
    {
      assert y.p[Data(k, j)] == TableAt(y.flat, y.p[Leaf(k)])[j];
      if k != i {
        TableElsewhere(y.flat, s, Zeros(), y.p[Leaf(k)]);
      }
    }
    TableElsewhere(y.flat, s, Zeros(), y.p[0]);
  }

  lemma TabSet(x: Start, q: Slots, tab: Table, i: nat, s: Word)
    requires i < NUM_POINTERS && TabIs(q, tab)
    ensures var q' := q[Leaf(i) := s];
      && q'[0] == q[0] && TabIs(q', tab[i := s])
      && (forall j | 0 <= j < NUM_POINTERS :: q'[Data(i, j)] == q[Data(i, j)])
      && (ChangedUpTo(x, q, LEAF_SPAN * i) ==> ChangedUpTo(x, q', LEAF_SPAN * i))
      && (ChangedUpTo(x, q, LEAF_SPAN * (i + 1)) ==> ChangedUpTo(x, q', LEAF_SPAN * (i + 1)))
  {
  }

  lemma AddTree(x: Start, y: Now, tab: Table, i: nat, s: Word)
    requires OuterInv(x, y, tab, i) && i < NUM_POINTERS
    requires tab[i] == 0 && Need(Leaf(i), x.size) && s < |y.bits| && !y.bits[s]
    ensures s < |y.flat| && s != 0
    ensures var y' := Filled(y, Leaf(i), s); Progress(x, y') && LeavesRep(y') && RootStale(x, y')
  {
    assert LeafFresh(x, y.p, i);
    NothingReleased(x, y, LEAF_SPAN * i);
    FillTree(x, y, Leaf(i), s);
    FillSlot(x, y, Leaf(i), s);
    AddLeaves(x, y, i, s);
  }

  /** Step 1: a missing second-level table is made. */
  lemma OuterAdd(x: Start, y: Now, tab: Table, i: nat, s: Word)
    requires OuterInv(x, y, tab, i) && i < NUM_POINTERS
    requires tab[i] == 0 && Need(Leaf(i), x.size) && s < |y.bits| && !y.bits[s]
    ensures s < |y.flat| && s != 0
    ensures MidInv(x, Filled(y, Leaf(i), s), tab[i := s], i)
  {
    AddTree(x, y, tab, i, s);
    AddShape(x, y.p, tab, i, s);
  }

  lemma AddShape(x: Start, p: Slots, tab: Table, i: nat, s: Word)
    requires i < NUM_POINTERS && TabIs(p, tab) && ChangedUpTo(x, p, LEAF_SPAN * i) && p[0] != 0
    requires forall k | 0 <= k < i :: LeafDone(p, x.size, k)
    requires forall k | i <= k < NUM_POINTERS :: LeafFresh(x, p, k)
    ensures var p' := p[Leaf(i) := s];
      && p'[0] != 0 && TabIs(p', tab[i := s]) && ChangedUpTo(x, p', LEAF_SPAN * i) && LeavesAround(x, p', i)
      && forall j | 0 <= j < NUM_POINTERS :: p'[Data(i, j)] == x.p[Data(i, j)]
  {
    assert LeafFresh(x, p, i);
    TabSet(x, p, tab, i, s);
    AroundKept(x, p, p[Leaf(i) := s], i);
  }

  lemma OuterNoAdd(x: Start, y: Now, tab: Table, i: nat)
    requires OuterInv(x, y, tab, i) && i < NUM_POINTERS
    requires tab[i] != 0 || !Need(Leaf(i), x.size)
    ensures MidInv(x, y, tab, i)
  {
    assert LeafFresh(x, y.p, i);
  }

  /** Before step 2, for `ResizeLeaf`. */
  lemma OuterEnter(x: Start, y: Now, tab: Table, i: nat, table: Table)
    requires i < NUM_POINTERS && MidInv(x, y, tab, i) && tab[i] != 0
    requires table == TableAt(y.flat, tab[i])
    ensures LeafInv(x, y, y.p, y.flat, table, table, i, 0)
  {
  }

  /** Step 2, when there is no second-level table. */
  lemma OuterNoLeaf(x: Start, y: Now, tab: Table, i: nat)
    requires i < NUM_POINTERS && MidInv(x, y, tab, i) && tab[i] == 0
    ensures LateInv(x, y, tab, i)
  {
    forall j | 0 <= j < NUM_POINTERS
      ensures y.p[Data(i, j)] == 0 && !Need(Data(i, j), x.size)
    {
      DataPos(i, j);
    }
  }

  /** The tables of other leaves survive step 2. */
  lemma OtherLeaves(x: Start, y: Now, y1: Now, i: nat, leaf: Table, table: Table, b: Block, k: nat, j: nat)
    requires i < NUM_POINTERS && k < NUM_POINTERS && j < NUM_POINTERS && k != i
    requires LeavesRep(y) && y.p[Leaf(i)] != 0 && TreeOk(y.bits, y.p) && |y.flat| == |y.bits|
    requires LeafInv(x, y1, y.p, y.flat, table, leaf, i, NUM_POINTERS)
    ensures y.p[Leaf(i)] < |y1.flat|
    ensures y1.p[Data(k, j)] == TableAt(y1.flat[y.p[Leaf(i)] := b], y1.p[Leaf(k)])[j]
  {
    assert y1.p[Leaf(k)] == y.p[Leaf(k)] && y1.p[Leaf(i)] == y.p[Leaf(i)];
    assert y1.p[Data(k, j)] == y.p[Data(k, j)];
    if y.p[Leaf(k)] != 0 {
      assert Leaf(k) < Leaf(i) || Leaf(i) < Leaf(k);
      TableElsewhere(y1.flat, y.p[Leaf(i)], b, y.p[Leaf(k)]);
    }
  }

  lemma CommitLeaves(x: Start, y: Now, tab: Table, i: nat, y1: Now, table: Table, leaf: Table)
    requires i < NUM_POINTERS && MidInv(x, y, tab, i) && tab[i] != 0
    requires LeafInv(x, y1, y.p, y.flat, table, leaf, i, NUM_POINTERS)
    ensures tab[i] < |y1.flat|
    ensures var y' := Now(y1.flat[tab[i] := PointerBlock(leaf)], y1.bits, y1.p);
      LeavesRep(y') && RootStale(x, y')
  {
    var b := PointerBlock(leaf);
    var y' := Now(y1.flat[tab[i] := b], y1.bits, y1.p);
    PointersRoundTrip(leaf);
    forall k, j | 0 <= k < NUM_POINTERS && 0 <= j < NUM_POINTERS
      ensures y'.p[Data(k, j)] == TableAt(y'.flat, y'.p[Leaf(k)])[j]
    {
      if k != i {
        OtherLeaves(x, y, y1, i, leaf, table, b, k, j);
      }
    }
    assert y1.p[0] == y.p[0] != tab[i] == y.p[Leaf(i)];
    TableElsewhere(y1.flat, tab[i], b, y.p[0]);
  }

  /** Step 2: the data slots are done and the table is written. */
  lemma OuterCommit(x: Start, y: Now, tab: Table, i: nat, y1: Now, table: Table, leaf: Table)
    requires i < NUM_POINTERS && MidInv(x, y, tab, i) && tab[i] != 0
    requires LeafInv(x, y1, y.p, y.flat, table, leaf, i, NUM_POINTERS)
    ensures tab[i] < |y1.flat|
    ensures LateInv(x, Now(y1.flat[tab[i] := PointerBlock(leaf)], y1.bits, y1.p), tab, i)
  {
    var y' := Now(y1.flat[tab[i] := PointerBlock(leaf)], y1.bits, y1.p);
    CommitLeaves(x, y, tab, i, y1, table, leaf);
    WriteTable(x, y1, Leaf(i), PointerBlock(leaf));
    AroundKept(x, y.p, y'.p, i);
  }

  /** Step 3: a second-level table that is not needed is given back. */
  lemma OuterDrop(x: Start, y: Now, tab: Table, i: nat)
    requires i < NUM_POINTERS && LateInv(x, y, tab, i) && tab[i] != 0 && !Need(Leaf(i), x.size)
    ensures tab[i] < |y.bits| && y.bits[tab[i]] && tab[i] == y.p[Leaf(i)]
    ensures OuterInv(x, Emptied(y, Leaf(i)), tab[i := 0], i + 1)
  {
    EmptySlot(x, y, Leaf(i));
    var y' := Emptied(y, Leaf(i));
    assert y'.p[0] == y.p[0];
    forall j | 0 <= j < NUM_POINTERS ensures y.p[Data(i, j)] == 0 {
      DataPos(i, j);
    }
    assert LeafDone(y'.p, x.size, i);
    TabSet(x, y.p, tab, i, 0);
    AroundKept(x, y.p, y'.p, i);
  }

  lemma OuterKeep(x: Start, y: Now, tab: Table, i: nat)
    requires i < NUM_POINTERS && LateInv(x, y, tab, i)
    requires tab[i] != 0 ==> Need(Leaf(i), x.size)
    ensures OuterInv(x, y, tab, i + 1)
  {
    assert LeafDone(y.p, x.size, i);
  }

  // --- the failure path --------------------------------------------------

  /** An allocation failed: nothing has been released, and the tables that the
      device knows of hold their original pointers, some perhaps new ones. */
  ghost predicate Stuck(x: Start, y: Now) {
    && Progress(x, y) && y.p[0] != 0 && RootStale(x, y)
    && (forall a | 0 <= a < SLOTS && x.p[a] != 0 :: y.p[a] == x.p[a])
    && (forall s | 0 <= s < |x.bits| && x.bits[s] :: y.bits[s])
    && (forall i, j | 0 <= i < NUM_POINTERS && 0 <= j < NUM_POINTERS && x.p[Leaf(i)] != 0 ::
          || TableAt(y.flat, x.p[Leaf(i)])[j] == y.p[Data(i, j)]
          || TableAt(y.flat, x.p[Leaf(i)])[j] == x.p[Data(i, j)])
    && (exists a :: 0 <= a < SLOTS && Need(a, x.size) && x.p[a] == 0)
  }

  /** The missing slots that have been filled are the ones before `stop`. */
  ghost predicate FilledUpTo(x: Start, y: Now, stop: nat) {
    && 0 < stop && Stopped(x.p, x.size, stop)
    && forall a | 0 <= a < SLOTS && x.p[a] == 0 :: y.p[a] != 0 <==> a in Taken(x.p, x.size, stop)
  }

  /** The old second-level tables before that of `stop` have been written. */
  ghost predicate WrittenUpTo(x: Start, y: Now, stop: nat) {
    forall i, j | 0 <= i < NUM_POINTERS && 0 <= j < NUM_POINTERS && x.p[Leaf(i)] != 0 ::
      TableAt(y.flat, x.p[Leaf(i)])[j] == if i < LeafOf(stop) then y.p[Data(i, j)] else x.p[Data(i, j)]
  }

  /** The allocation for slot `stop` failed. */
  ghost predicate StuckAt(x: Start, y: Now, stop: nat) {
    Stuck(x, y) && FilledUpTo(x, y, stop) && WrittenUpTo(x, y, stop)
  }

  lemma FilledAtLeaf(x: Start, y: Now, tab: Table, i: nat)
    requires OuterInv(x, y, tab, i) && i < NUM_POINTERS
    requires tab[i] == 0 && Need(Leaf(i), x.size)
    ensures FilledUpTo(x, y, Leaf(i))
  {
    assert LeafFresh(x, y.p, i);
    forall a | 0 < a < SLOTS && x.p[a] == 0
      ensures y.p[a] != 0 <==> Need(a, x.size) && Turn(a) < Turn(Leaf(i))
    {
      var k := LeafOf(a);
      SlotName(a);
      if k < i {
        assert LeafDone(y.p, x.size, k);
        EarlierLeaf(a, Leaf(i));
      } else {
        assert LeafFresh(x, y.p, k);
        if k > i {
          EarlierLeaf(Leaf(i), a);
        }
      }
    }
  }

  lemma SlotName(a: nat)
    requires 0 < a < SLOTS
    ensures LeafOf(a) < NUM_POINTERS
    ensures a == if a < 129 then Leaf(LeafOf(a)) else Data(LeafOf(a), (a - 129) % 128)
  {
  }

  lemma WrittenAtLeaf(x: Start, y: Now, tab: Table, i: nat)
    requires OuterInv(x, y, tab, i) && i < NUM_POINTERS && Stuck(x, y)
    ensures WrittenUpTo(x, y, Leaf(i))
  {
    forall k, j | 0 <= k < NUM_POINTERS && 0 <= j < NUM_POINTERS && x.p[Leaf(k)] != 0
      ensures TableAt(y.flat, x.p[Leaf(k)])[j] == if k < i then y.p[Data(k, j)] else x.p[Data(k, j)]
    {
      assert y.p[Leaf(k)] == x.p[Leaf(k)];
      if k >= i {
        assert LeafFresh(x, y.p, k);
      }
    }
  }

  lemma StuckAtLeaf(x: Start, y: Now, tab: Table, i: nat)
    requires OuterInv(x, y, tab, i) && i < NUM_POINTERS
    requires tab[i] == 0 && Need(Leaf(i), x.size)
    ensures StuckAt(x, y, Leaf(i))
  {
    NothingReleased(x, y, LEAF_SPAN * i);
    assert LeafFresh(x, y.p, i);
    assert Need(Leaf(i), x.size) && x.p[Leaf(i)] == 0;
    FilledAtLeaf(x, y, tab, i);
    WrittenAtLeaf(x, y, tab, i);
  }

  /** A slot of another second-level table, when the inner loop stops. */
  lemma FilledElsewhere(x: Start, p: Slots, i: nat, stop: nat, a: nat)
    requires i < NUM_POINTERS && LeavesAround(x, p, i) && Data(i, 0) <= stop < Data(i + 1, 0)
    requires 0 < a < SLOTS && x.p[a] == 0 && LeafOf(a) != i
    ensures p[a] != 0 <==> Need(a, x.size) && Turn(a) < Turn(stop)
  {
    var k := LeafOf(a);
    SlotName(a);
    assert LeafOf(stop) == i;
    if k < i {
      assert LeafDone(p, x.size, k);
      EarlierLeaf(a, stop);
    } else {
      assert LeafFresh(x, p, k);
      EarlierLeaf(stop, a);
    }
  }

  /** The data slots that the inner loop has dealt with come before `stop`. */
  lemma FilledHere(i: nat, j: nat, k: nat)
    requires i < NUM_POINTERS && j < NUM_POINTERS && k < NUM_POINTERS
    ensures Turn(Data(i, k)) < Turn(Data(i, j)) <==> k < j
    ensures Turn(Leaf(i)) < Turn(Data(i, j)) && Pos(Leaf(i)) <= Pos(Data(i, j))
    ensures Data(i, 0) <= Data(i, j) < Data(i + 1, 0) <= SLOTS
  {
  }

  lemma FilledInLeaf(x: Start, y: Now, tab: Table, i: nat, y1: Now, table: Table, leaf: Table, j: nat)
    requires i < NUM_POINTERS && MidInv(x, y, tab, i) && tab[i] != 0
    requires j < NUM_POINTERS && LeafInv(x, y1, y.p, y.flat, table, leaf, i, j)
    requires leaf[j] == 0 && Need(Data(i, j), x.size)
    ensures FilledUpTo(x, y1, Data(i, j))
  {
    var stop := Data(i, j);
    FilledHere(i, j, j);
    AroundKept(x, y.p, y1.p, i);
    forall a | 0 < a < SLOTS && x.p[a] == 0
      ensures y1.p[a] != 0 <==> Need(a, x.size) && Turn(a) < Turn(stop)
    {
      SlotName(a);
      if LeafOf(a) != i {
        FilledElsewhere(x, y1.p, i, stop, a);
      } else if a >= 129 {
        FilledHere(i, j, (a - 129) % 128);
      }
    }
  }

  /** A second-level table from before, when the inner loop stops in table `i`. */
  lemma WrittenTable(x: Start, y: Now, tab: Table, i: nat, y1: Now, k: nat, l: nat)
    requires i < NUM_POINTERS && k < NUM_POINTERS && l < NUM_POINTERS && MidInv(x, y, tab, i)
    requires x.p[Leaf(k)] != 0 && y.p[Leaf(k)] == x.p[Leaf(k)] && |y1.flat| == |y.flat|
    requires OnlyLeaf(y.p, y1.p, i) && TablesKept(y.flat, y1.flat, y.p)
    ensures TableAt(y1.flat, x.p[Leaf(k)])[l] == if k < i then y1.p[Data(k, l)] else x.p[Data(k, l)]
  {
    assert TableAt(y1.flat, y.p[Leaf(k)]) == TableAt(y.flat, y.p[Leaf(k)]);
    assert y.p[Data(k, l)] == TableAt(y.flat, y.p[Leaf(k)])[l];
    if k < i {
      assert y1.p[Data(k, l)] == y.p[Data(k, l)];
    } else if k > i {
      assert LeafFresh(x, y.p, k);
    }
  }

  lemma WrittenInLeaf(x: Start, y: Now, tab: Table, i: nat, y1: Now, table: Table, leaf: Table, j: nat)
    requires i < NUM_POINTERS && MidInv(x, y, tab, i) && tab[i] != 0
    requires j < NUM_POINTERS && LeafInv(x, y1, y.p, y.flat, table, leaf, i, j)
    requires forall a | 0 <= a < SLOTS && x.p[a] != 0 :: y1.p[a] == x.p[a]
    ensures WrittenUpTo(x, y1, Data(i, j))
  {
    FilledHere(i, j, j);
    forall k, l | 0 <= k < NUM_POINTERS && 0 <= l < NUM_POINTERS && x.p[Leaf(k)] != 0
      ensures TableAt(y1.flat, x.p[Leaf(k)])[l] == if k < i then y1.p[Data(k, l)] else x.p[Data(k, l)]
    {
      assert y.p[Leaf(k)] == y1.p[Leaf(k)];
      WrittenTable(x, y, tab, i, y1, k, l);
    }
  }

  lemma StuckInLeaf(x: Start, y: Now, tab: Table, i: nat, y1: Now, table: Table, leaf: Table, j: nat)
    requires i < NUM_POINTERS && MidInv(x, y, tab, i) && tab[i] != 0
    requires table == TableAt(y.flat, tab[i])
    requires j < NUM_POINTERS && LeafInv(x, y1, y.p, y.flat, table, leaf, i, j)
    requires leaf[j] == 0 && Need(Data(i, j), x.size)
    ensures StuckAt(x, y1, Data(i, j))
  {
    DataPos(i, j);
    NothingReleased(x, y1, Pos(Data(i, j)));
    FilledInLeaf(x, y, tab, i, y1, table, leaf, j);
    WrittenInLeaf(x, y, tab, i, y1, table, leaf, j);
    assert Need(Data(i, j), x.size) && x.p[Data(i, j)] == 0;
    assert y1.p[0] == y.p[0] && y1.flat[y.p[0]] == y.flat[y.p[0]];
    forall k, l | 0 <= k < NUM_POINTERS && 0 <= l < NUM_POINTERS && x.p[Leaf(k)] != 0
      ensures || TableAt(y1.flat, x.p[Leaf(k)])[l] == y1.p[Data(k, l)]
              || TableAt(y1.flat, x.p[Leaf(k)])[l] == x.p[Data(k, l)]
    {
      assert y.p[Leaf(k)] == y1.p[Leaf(k)] == x.p[Leaf(k)];
      assert y.p[Data(k, l)] == TableAt(y.flat, y.p[Leaf(k)])[l];
      if k != i {
        assert y1.p[Data(k, l)] == y.p[Data(k, l)];
      }
    }
  }

  lemma StuckIndex(x: Start, y: Now, a: nat)
    requires Stuck(x, y) && a < 129
    ensures var q := SlotAt(y.flat, y.p[0], a);
      && (q == 0 || q == y.p[a]) && (x.p[a] != 0 ==> q == x.p[a]) && (a > 0 ==> q == x.p[a])
  {
    if a > 0 {
      assert a == Leaf(a - 1);
    }
  }

  lemma StuckData(x: Start, y: Now, a: nat, i: nat, j: nat)
    requires Stuck(x, y) && i < NUM_POINTERS && j < NUM_POINTERS && a == Data(i, j)
    ensures var q := TableAt(y.flat, TableAt(y.flat, y.p[0])[i])[j];
      && (q == 0 || q == y.p[a])
      && (x.p[a] != 0 && x.p[Leaf(i)] != 0 ==> q == x.p[a])
  {
    assert TableAt(y.flat, y.p[0])[i] == x.p[Leaf(i)];
  }

  /** The on-device tree after a failed allocation is part of the intended one,
      and still has every sector of the original. */
  lemma StuckSlot(x: Start, y: Now, a: nat)
    requires Stuck(x, y) && a < SLOTS
    ensures var q := SlotAt(y.flat, y.p[0], a);
      && (q == 0 || q == y.p[a])
      && (x.p[a] != 0 ==> (a < 129 || x.p[Leaf((a - 129) / 128)] != 0) ==> q == x.p[a])
      && (0 < a < 129 ==> q == x.p[a])
  {
    if a < 129 {
      StuckIndex(x, y, a);
    } else {
      SlotName(a);
      StuckData(x, y, a, LeafOf(a), (a - 129) % 128);
    }
  }

  /** `q` keeps some of the slots of `p`. */
  ghost predicate Part(q: Slots, p: Slots) {
    forall a | 0 <= a < SLOTS :: q[a] == 0 || q[a] == p[a]
  }

  lemma PartTree(bits: seq<bool>, q: Slots, p: Slots)
    requires TreeOk(bits, p) && Part(q, p)
    ensures TreeOk(bits, q)
    ensures forall s :: Owns(q, s) ==> Owns(p, s)
  {
    forall a, b | 0 <= a < b < SLOTS ensures q[a] != 0 ==> q[a] != q[b] {
      assert q[a] == 0 || q[a] == p[a];
      assert q[b] == 0 || q[b] == p[b];
    }
    forall s | Owns(q, s) ensures Owns(p, s) {
      var a :| 0 <= a < SLOTS && q[a] == s;
      assert p[a] == s;
    }
  }

  /** What a resize that succeeds leaves behind. */
  ghost predicate Resized(x: Start, y: Now) {
    Progress(x, y) && Exact(y.p, x.size) && y.p == SlotsOf(y.flat, y.p[0])
  }

  /** What a resize that fails leaves behind: the tree of the original length
      with its original pointers, the contents of its data sectors, and the
      sectors and contents of everybody else. Slots that the original length does
      not need have given their sectors back. */
  ghost predicate RolledBack(x: Start, length: nat, y: Now) {
    && SameSize(x, y) && y.p == SlotsOf(y.flat, y.p[0]) && TreeOk(y.bits, y.p)
    && (forall a | 0 <= a < SLOTS :: y.p[a] == if Need(a, length) then x.p[a] else 0)
    && DataKept(x, y)
    && (forall s | 0 < s < |x.bits| && x.bits[s] && !Owns(x.p, s) :: y.bits[s] && !Owns(y.p, s))
    && (forall a | 0 <= a < SLOTS && x.p[a] != 0 && !Need(a, length) ::
          x.p[a] < |y.bits| && !y.bits[x.p[a]])
  }

  lemma RollbackSlots(x: Start, length: nat, y: Now, q: Slots, z: Now)
    requires Stuck(x, y) && Covers(x.p, length)
    requires q == SlotsOf(y.flat, y.p[0]) && Resized(Start(y.flat, y.bits, q, length), z)
    requires Covers(q, length)
    ensures forall a | 0 <= a < SLOTS :: z.p[a] == if Need(a, length) then x.p[a] else 0
  {
    var w := Start(y.flat, y.bits, q, length);
    forall a | 0 <= a < SLOTS ensures z.p[a] == if Need(a, length) then x.p[a] else 0 {
      StuckSlot(x, y, a);
      assert SlotKept(w, z, a);
      assert q[a] == SlotAt(y.flat, y.p[0], a);
      if Need(a, length) {
        assert q[a] != 0 && x.p[a] != 0;
        LeafOfNeeded(a, length);
      }
    }
  }

  lemma LeafOfNeeded(a: nat, size: nat)
    requires a < SLOTS && Need(a, size)
    ensures a >= 129 ==> Need(Leaf((a - 129) / 128), size)
  {
  }

  /** Before the rollback: the device's tree is sound and needs nothing new. */
  lemma RollbackReady(x: Start, length: nat, y: Now, q: Slots)
    requires Stuck(x, y) && Covers(x.p, length) && q == SlotsOf(y.flat, y.p[0])
    ensures TreeOk(y.bits, q) && Covers(q, length) && Part(q, y.p)
  {
    forall a | 0 <= a < SLOTS
      ensures q[a] == 0 || q[a] == y.p[a]
      ensures Need(a, length) ==> q[a] != 0
    {
      StuckSlot(x, y, a);
      assert q[a] == SlotAt(y.flat, y.p[0], a);
      if Need(a, length) {
        LeafOfNeeded(a, length);
      }
    }
    PartTree(y.bits, q, y.p);
  }

  lemma RollbackKept(x: Start, length: nat, y: Now, q: Slots, z: Now)
    requires Stuck(x, y) && q == SlotsOf(y.flat, y.p[0]) && Part(q, y.p)
    requires Progress(Start(y.flat, y.bits, q, length), z)
    ensures SameSize(x, z) && DataKept(x, z)
    ensures forall s | 0 < s < |x.bits| && x.bits[s] && !Owns(x.p, s) :: z.bits[s] && !Owns(z.p, s)
  {
    forall s | 0 <= s < |x.flat| && x.bits[s] && !IsIndex(x.p, s) ensures z.flat[s] == x.flat[s] {
      NoNewIndex(x, y, q, s);
    }
    PartTree(y.bits, q, y.p);
    forall s | 0 < s < |x.bits| && x.bits[s] && !Owns(x.p, s) ensures z.bits[s] && !Owns(z.p, s) {
      assert y.bits[s] && !Owns(y.p, s);
      assert !Owns(q, s);
    }
  }

  lemma NoNewIndex(x: Start, y: Now, q: Slots, s: nat)
    requires Stuck(x, y) && q == SlotsOf(y.flat, y.p[0])
    requires 0 <= s < |x.bits| && x.bits[s] && !IsIndex(x.p, s)
    ensures !IsIndex(q, s)
  {
    forall a | 0 <= a < 129 && s != 0 ensures q[a] != s {
      StuckSlot(x, y, a);
      assert q[a] == SlotAt(y.flat, y.p[0], a);
      assert SlotKept(x, y, a);
    }
  }

  lemma Rollback(x: Start, length: nat, y: Now, q: Slots, z: Now)
    requires x.p == SlotsOf(x.flat, x.p[0]) && Stuck(x, y) && Covers(x.p, length) && q == SlotsOf(y.flat, y.p[0])
    requires Resized(Start(y.flat, y.bits, q, length), z)
    ensures RolledBack(x, length, z)
  {
    RollbackReady(x, length, y, q);
    RollbackSlots(x, length, y, q, z);
    RollbackKept(x, length, y, q, z);
    forall a | 0 <= a < SLOTS && x.p[a] != 0 && !Need(a, length)
      ensures x.p[a] < |z.bits| && !z.bits[x.p[a]]
    {
      RollbackReturns(x, length, y, q, z, a);
    }
  }

  /** A slot beyond the original length gives its sector back. */
  lemma RollbackReturns(x: Start, length: nat, y: Now, q: Slots, z: Now, a: nat)
    requires Stuck(x, y) && q == SlotsOf(y.flat, y.p[0]) && x.p == SlotsOf(x.flat, x.p[0])
    requires Progress(Start(y.flat, y.bits, q, length), z)
    requires forall b | 0 <= b < SLOTS :: z.p[b] == if Need(b, length) then x.p[b] else 0
    requires a < SLOTS && x.p[a] != 0 && !Need(a, length)
    ensures x.p[a] < |z.bits| && !z.bits[x.p[a]]
  {
    StuckSlot(x, y, a);
    LeafOfSlot(x.flat, x.p, a);
    assert q[a] == SlotAt(y.flat, y.p[0], a);
    assert Owns(q, x.p[a]);
    forall b | 0 <= b < SLOTS ensures z.p[b] != x.p[a] {
      assert a < b || b < a || a == b;
    }
  }

  /** A data slot that is filled hangs off a table that exists. */
  lemma LeafOfSlot(flat: seq<Block>, p: Slots, a: nat)
    requires p == SlotsOf(flat, p[0]) && a < SLOTS && p[a] != 0
    ensures a >= 129 ==> p[Leaf((a - 129) / 128)] != 0
  {
    if a >= 129 {
      var i, j := (a - 129) / 128, (a - 129) % 128;
      assert a == Data(i, j);
      SlotsRep(flat, p[0], i, j);
    }
  }

  // --- what the rollback does not give back ------------------------------

  /** The allocation for `stop` failed, and as many sectors are lost as slots
      have been filled of which the device does not know. */
  ghost predicate Loss(x: Start, z: Now, stop: nat) {
    SameSize(x, z) && Stopped(x.p, x.size, stop) && |Lost(x, z)| == |Hidden(x.p, x.size, stop)|
  }

  /** The rollback sees a filled slot exactly if the device knows of it. */
  lemma SeenSlot(x: Start, y: Now, stop: nat, a: nat)
    requires StuckAt(x, y, stop) && a in Taken(x.p, x.size, stop)
    ensures SlotAt(y.flat, y.p[0], a) == if OnDevice(x.p, a, stop) then y.p[a] else 0
  {
    if a > 0 {
      SlotName(a);
      assert TableAt(y.flat, y.p[0])[LeafOf(a)] == x.p[Leaf(LeafOf(a))];
    }
  }

  /** It sees every original slot. */
  lemma SeenBefore(x: Start, y: Now, q: Slots, a: nat)
    requires Stuck(x, y) && q == SlotsOf(y.flat, y.p[0]) && x.p == SlotsOf(x.flat, x.p[0])
    requires a < SLOTS && x.p[a] != 0
    ensures q[a] == x.p[a] == y.p[a]
  {
    StuckSlot(x, y, a);
    LeafOfSlot(x.flat, x.p, a);
    assert q[a] == SlotAt(y.flat, y.p[0], a);
  }

  /** So the sectors that the rollback cannot see are those of hidden slots. */
  lemma UnseenIsHidden(x: Start, y: Now, q: Slots, stop: nat, s: nat)
    requires StuckAt(x, y, stop) && q == SlotsOf(y.flat, y.p[0]) && x.p == SlotsOf(x.flat, x.p[0])
    requires Owns(y.p, s) && !Owns(q, s)
    ensures exists a :: a in Hidden(x.p, x.size, stop) && y.p[a] == s
  {
    var a :| 0 <= a < SLOTS && y.p[a] == s;
    assert q[a] == SlotAt(y.flat, y.p[0], a) && q[a] in q;
    if x.p[a] != 0 {
      SeenBefore(x, y, q, a);
    } else {
      SeenSlot(x, y, stop, a);
      assert a in Hidden(x.p, x.size, stop);
    }
  }

  lemma HiddenIsUnseen(x: Start, y: Now, q: Slots, stop: nat, a: nat)
    requires StuckAt(x, y, stop) && q == SlotsOf(y.flat, y.p[0]) && Part(q, y.p)
    requires a in Hidden(x.p, x.size, stop)
    ensures Owns(y.p, y.p[a]) && !Owns(q, y.p[a])
  {
    SeenSlot(x, y, stop, a);
    assert q[a] == SlotAt(y.flat, y.p[0], a);
    forall b | 0 <= b < SLOTS ensures q[b] != y.p[a] {
      assert a < b || b < a || a == b;
    }
  }

  /** A sector is lost exactly if the file had it and the rollback cannot see it. */
  lemma LostIsUnseen(x: Start, length: nat, y: Now, q: Slots, z: Now, s: nat)
    requires Progress(x, y) && Progress(Start(y.flat, y.bits, q, length), z) && Part(q, y.p)
    requires SameSize(x, z) && 0 < s < |x.bits|
    ensures s in Lost(x, z) <==> Owns(y.p, s) && !Owns(q, s)
  {
    PartTree(y.bits, q, y.p);
    assert (z.bits[s] && !Owns(z.p, s)) <==> (y.bits[s] && !Owns(q, s));
    assert (y.bits[s] && !Owns(y.p, s)) <==> (x.bits[s] && !Owns(x.p, s));
  }

  lemma LostIsHidden(x: Start, length: nat, y: Now, q: Slots, z: Now, stop: nat, s: nat)
    requires StuckAt(x, y, stop) && q == SlotsOf(y.flat, y.p[0]) && x.p == SlotsOf(x.flat, x.p[0]) && Part(q, y.p)
    requires Progress(Start(y.flat, y.bits, q, length), z) && SameSize(x, z) && s in Lost(x, z)
    ensures exists a :: a in Hidden(x.p, x.size, stop) && y.p[a] == s
  {
    LostIsUnseen(x, length, y, q, z, s);
    UnseenIsHidden(x, y, q, stop, s);
  }

  lemma HiddenIsLost(x: Start, length: nat, y: Now, q: Slots, z: Now, stop: nat, a: nat)
    requires StuckAt(x, y, stop) && q == SlotsOf(y.flat, y.p[0]) && Part(q, y.p)
    requires Progress(Start(y.flat, y.bits, q, length), z) && SameSize(x, z) && a in Hidden(x.p, x.size, stop)
    ensures y.p[a] in Lost(x, z)
  {
    HiddenIsUnseen(x, y, q, stop, a);
    LostIsUnseen(x, length, y, q, z, y.p[a]);
  }

  lemma HiddenFilled(x: Start, y: Now, stop: nat)
    requires StuckAt(x, y, stop)
    ensures Distinct(y.p) && forall a | a in Hidden(x.p, x.size, stop) :: a < SLOTS && y.p[a] != 0
  {
  }

  lemma LossCount(x: Start, length: nat, y: Now, q: Slots, z: Now, stop: nat)
    requires StuckAt(x, y, stop) && q == SlotsOf(y.flat, y.p[0]) && x.p == SlotsOf(x.flat, x.p[0])
    requires Covers(x.p, length) && Resized(Start(y.flat, y.bits, q, length), z) && SameSize(x, z)
    ensures Loss(x, z, stop)
  {
    RollbackReady(x, length, y, q);
    var hidden, lost := Hidden(x.p, x.size, stop), Lost(x, z);
    forall s | s in lost ensures exists a :: a in hidden && y.p[a] == s {
      LostIsHidden(x, length, y, q, z, stop, s);
    }
    forall a | a in hidden ensures y.p[a] in lost {
      HiddenIsLost(x, length, y, q, z, stop, a);
    }
    HiddenFilled(x, y, stop);
    ImageOf(y.p, hidden, lost);
  }

  /** Every sector that is not free any more is in a filled slot. */
  lemma TakenCount(x: Start, y: Now, stop: nat)
    requires StuckAt(x, y, stop)
    ensures Free(y.bits) == {} ==> |Free(x.bits)| == |Taken(x.p, x.size, stop)|
  {
    var taken := Taken(x.p, x.size, stop);
    if Free(y.bits) == {} {
      forall s | s in Free(x.bits) ensures exists a :: a in taken && y.p[a] == s {
        assert s !in Free(y.bits) && y.bits[s];
        assert Owns(y.p, s);
        var a :| 0 <= a < SLOTS && y.p[a] == s;
        assert x.p[a] == 0;
      }
      forall a | a in taken ensures y.p[a] in Free(x.bits) {
        assert SlotKept(x, y, a);
      }
      assert Free(x.bits) == set a | a in taken :: y.p[a];
      ImageCount(y.p, taken, Free(x.bits));
    }
  }

  /** A resize that succeeds has found a free sector for every missing slot. */
  lemma ResizedFits(x: Start, y: Now)
    requires Resized(x, y)
    ensures |Missing(x.p, x.size)| <= |Free(x.bits)|
  {
    var missing := Missing(x.p, x.size);
    var sectors := set a | a in missing :: y.p[a];
    forall a | a in missing ensures y.p[a] in Free(x.bits) && y.p[a] != 0 {
      assert SlotKept(x, y, a);
    }
    ImageCount(y.p, missing, sectors);
    PartCount(sectors, Free(x.bits));
  }

  // --- the end of the outer loop -----------------------------------------

  lemma SlotsAreRep(y: Now)
    requires LeavesRep(y) && TabIs(y.p, TableAt(y.flat, y.p[0]))
    ensures y.p == SlotsOf(y.flat, y.p[0])
  {
    forall a | 0 <= a < SLOTS ensures y.p[a] == SlotAt(y.flat, y.p[0], a) {
      if 0 < a < 129 {
        assert a == Leaf(a - 1);
      } else if a >= 129 {
        var i, j := (a - 129) / 128, (a - 129) % 128;
        assert a == Data(i, j);
      }
    }
  }

  lemma DoneIsExact(x: Start, p: Slots)
    requires forall i | 0 <= i < NUM_POINTERS :: LeafDone(p, x.size, i)
    ensures forall a | 0 < a < SLOTS :: p[a] != 0 <==> Need(a, x.size)
  {
    forall a | 0 < a < SLOTS ensures p[a] != 0 <==> Need(a, x.size) {
      if a < 129 {
        assert a == Leaf(a - 1) && LeafDone(p, x.size, a - 1);
      } else {
        var i, j := (a - 129) / 128, (a - 129) % 128;
        assert a == Data(i, j) && LeafDone(p, x.size, i);
      }
    }
  }

  /** Writing the first-level table makes the device's tree the intended one. */
  lemma RootCommit(x: Start, y: Now, tab: Table)
    requires OuterInv(x, y, tab, NUM_POINTERS)
    ensures y.p[0] < |y.flat|
    ensures var y' := Now(y.flat[y.p[0] := PointerBlock(tab)], y.bits, y.p);
      && Progress(x, y') && y'.p == SlotsOf(y'.flat, y'.p[0])
      && forall a | 0 < a < SLOTS :: y'.p[a] != 0 <==> Need(a, x.size)
  {
    var b := PointerBlock(tab);
    var y' := Now(y.flat[y.p[0] := b], y.bits, y.p);
    PointersRoundTrip(tab);
    WriteTable(x, y, 0, b);
    forall i, j | 0 <= i < NUM_POINTERS && 0 <= j < NUM_POINTERS
      ensures y'.p[Data(i, j)] == TableAt(y'.flat, y'.p[Leaf(i)])[j]
    {
      RootIsNoLeaf(y, i);
      TableElsewhere(y.flat, y.p[0], b, y.p[Leaf(i)]);
    }
    SlotsAreRep(y');
    DoneIsExact(x, y.p);
  }

  lemma RootIsNoLeaf(y: Now, i: nat)
    requires Distinct(y.p) && y.p[0] != 0 && i < NUM_POINTERS
    ensures y.p[Leaf(i)] != y.p[0]
  {
  }

  // --- the program -------------------------------------------------------

  method EnsureTable(c: Cache, m: SectorMap, tab: Table, i: nat, size: nat, ghost x: Start, ghost y: Now)
    returns (ok: bool, t: Word, ghost y': Now, ghost stop: nat)
    requires Mounted(c, m) && i < NUM_POINTERS && x.size == size
    requires y.flat == c.flat && y.bits == m.bits && OuterInv(x, y, tab, i)
    modifies c, m, m.store.words
    ensures Mounted(c, m) && |c.disk| == old(|c.disk|) && c.mark == old(c.mark)
    ensures y'.flat == c.flat && y'.bits == m.bits && y'.p[0] == y.p[0]
    ensures ok ==> MidInv(x, y', tab[i := t], i)
    ensures !ok ==> StuckAt(x, y', stop) && (m.writable ==> Free(m.bits) == {})
  {
    ok, t, y', stop := true, tab[i], y, Leaf(i);
    if size > LEAF_SPAN * i && tab[i] == 0 {
      StuckAtLeaf(x, y, tab, i);
      ok, t := AddSector(c, m);
      if ok {
        OuterAdd(x, y, tab, i, t);
        y' := Filled(y, Leaf(i), t);
      }
    } else {
      OuterNoAdd(x, y, tab, i);
      assert tab[i := t] == tab;
    }
  }

  method FillTable(c: Cache, m: SectorMap, tab: Table, i: nat, size: nat, ghost x: Start, ghost y: Now)
    returns (ok: bool, ghost y': Now, ghost stop: nat)
    requires Mounted(c, m) && i < NUM_POINTERS && x.size == size
    requires y.flat == c.flat && y.bits == m.bits && MidInv(x, y, tab, i)
    modifies c, m, m.store.words
    ensures Mounted(c, m) && |c.disk| == old(|c.disk|) && c.mark == old(c.mark)
    ensures y'.flat == c.flat && y'.bits == m.bits && y'.p[0] == y.p[0]
    ensures ok ==> LateInv(x, y', tab, i)
    ensures !ok ==> StuckAt(x, y', stop) && (m.writable ==> Free(m.bits) == {})
  {
    ok, y', stop := true, y, 0;
    if tab[i] != 0 {
      var b := ReadSector(c, m, tab[i]);
      var table := Pointers(b);
      OuterEnter(x, y, tab, i, table);
      var leaf;
      ghost var j;
      ok, leaf, y', j := ResizeLeaf(c, m, table, i, size, x, y);
      if !ok {
        StuckInLeaf(x, y, tab, i, y', table, leaf, j);
        stop := Data(i, j);
        return;
      }
      OuterCommit(x, y, tab, i, y', table, leaf);
      WriteSector(c, m, tab[i], PointerBlock(leaf));
      y' := Now(c.flat, m.bits, y'.p);
    } else {
      OuterNoLeaf(x, y, tab, i);
    }
  }

  method DropTable(m: SectorMap, tab: Table, i: nat, size: nat, ghost x: Start, ghost y: Now)
    returns (t: Word, ghost y': Now)
    requires m.Valid() && i < NUM_POINTERS && x.size == size && y.bits == m.bits && LateInv(x, y, tab, i)
    modifies m, m.store.words
    ensures y'.flat == y.flat && y'.bits == m.bits && |m.bits| == old(|m.bits|) && y'.p[0] == y.p[0]
    ensures m.Valid() && |m.bits| > 0 && m.bits[0]
    ensures OuterInv(x, y', tab[i := t], i + 1)
  {
    t, y' := tab[i], y;
    if size <= LEAF_SPAN * i && tab[i] != 0 {
      OuterDrop(x, y, tab, i);
      FreeSector(m, tab[i]);
      t, y' := 0, Emptied(y, Leaf(i));
    } else {
      OuterKeep(x, y, tab, i);
      assert tab[i := t] == tab;
    }
  }

  /** `y` is where the file system is, on a device of `n` sectors, and the
      first-level table is in sector `root`. */
  ghost predicate Here(c: Cache, m: SectorMap, y: Now, n: nat, root: Word, mark: Mark)
    reads c, m, m.store, m.store.words
  {
    && Mounted(c, m) && y.flat == c.flat && y.bits == m.bits && |c.disk| == n && y.p[0] == root
    && c.mark == mark
  }

  /** An allocation has failed, for want of a free sector if the map is writable. */
  ghost predicate Failing(m: SectorMap, x: Start, y: Now, stop: nat)
    reads m
  {
    StuckAt(x, y, stop) && (m.writable ==> Free(m.bits) == {})
  }

  /** `inv` is the invariant of the outer loop. */
  ghost predicate Means(inv: (Now, Table, nat) -> bool, x: Start) {
    forall y, tab, i: nat {:trigger OuterInv(x, y, tab, i)} :: inv(y, tab, i) == OuterInv(x, y, tab, i)
  }

  /** One turn of the outer loop. */
  method OneTable(c: Cache, m: SectorMap, tab: Table, i: nat, size: nat, ghost x: Start, ghost y: Now,
                  ghost n: nat, ghost root: Word, ghost mark: Mark, ghost inv: (Now, Table, nat) -> bool)
    returns (ok: bool, tab': Table, ghost y': Now, ghost stop: nat)
    requires Here(c, m, y, n, root, mark) && i < NUM_POINTERS && x.size == size && Means(inv, x) && inv(y, tab, i)
    modifies c, m, m.store.words
    ensures Here(c, m, y', n, root, mark)
    ensures if ok then inv(y', tab', i + 1) else Failing(m, x, y', stop)
  {
    assert OuterInv(x, y, tab, i);
    tab' := tab;
    var t;
    ok, t, y', stop := EnsureTable(c, m, tab, i, size, x, y);
    if ok {
      tab' := tab[i := t];
      ok, y', stop := FillTable(c, m, tab', i, size, x, y');
      if ok {
        t, y' := DropTable(m, tab', i, size, x, y');
        tab' := tab'[i := t];
        assert OuterInv(x, y', tab', i + 1);
      }
    }
  }

  /** The outer loop, over the first-level table `tab0`. */
  method ResizeAll(c: Cache, m: SectorMap, tab0: Table, size: nat, ghost x: Start, ghost y: Now,
                   ghost n: nat, ghost root: Word, ghost mark: Mark, ghost inv: (Now, Table, nat) -> bool)
    returns (ok: bool, tab: Table, ghost y': Now, ghost stop: nat)
    requires Here(c, m, y, n, root, mark) && x.size == size && Means(inv, x) && inv(y, tab0, 0)
    modifies c, m, m.store.words
    ensures Here(c, m, y', n, root, mark)
    ensures if ok then inv(y', tab, NUM_POINTERS) else Failing(m, x, y', stop)
  {
    ok, tab, y', stop := true, tab0, y, 0;
    var i := 0;
    while ok && i < NUM_POINTERS
      invariant i <= NUM_POINTERS && Here(c, m, y', n, root, mark)
      invariant if ok then inv(y', tab, i) else Failing(m, x, y', stop)
    {
      ok, tab, y', stop := OneTable(c, m, tab, i, size, x, y', n, root, mark, inv);
      i := i + 1;
    }
  }

  /** The tables of the file whose first-level table is in sector `root`. */
  method ResizeTables(c: Cache, m: SectorMap, root: Word, size: nat, ghost x: Start, ghost y: Now)
    returns (ok: bool, ghost y': Now, ghost stop: nat)
    requires Mounted(c, m) && x.size == size && 0 < root < |c.disk|
    requires y.flat == c.flat && y.bits == m.bits && y.p[0] == root
    requires OuterInv(x, y, TableAt(c.flat, root), 0)
    modifies c, m, m.store.words
    ensures Mounted(c, m) && |c.disk| == old(|c.disk|) && c.mark == old(c.mark)
    ensures y'.flat == c.flat && y'.bits == m.bits && y'.p[0] == root
    ensures ok ==> Progress(x, y') && y'.p == SlotsOf(y'.flat, root)
    ensures ok ==> forall a | 0 < a < SLOTS :: y'.p[a] != 0 <==> Need(a, size)
    ensures !ok ==> StuckAt(x, y', stop) && (m.writable ==> Free(m.bits) == {})
  {
    var b := ReadSector(c, m, root);
    var tab;
    ghost var inv := (y: Now, tab: Table, i: nat) => OuterInv(x, y, tab, i);
    ok, tab, y', stop := ResizeAll(c, m, Pointers(b), size, x, y, |c.disk|, root, c.mark, inv);
    if ok {
      RootCommit(x, y', tab);
      WriteSector(c, m, root, PointerBlock(tab));
      y' := Now(c.flat, m.bits, y'.p);
    }
  }

  ghost function Begin(flat: seq<Block>, bits: seq<bool>, root: Word, size: nat): Start {
    Start(flat, bits, SlotsOf(flat, root), size)
  }

  lemma NoTree(flat: seq<Block>)
    ensures forall a | 0 <= a < SLOTS :: SlotsOf(flat, 0)[a] == 0
  {
    forall a | 0 <= a < SLOTS ensures SlotsOf(flat, 0)[a] == 0 {
      assert SlotsOf(flat, 0)[a] == SlotAt(flat, 0, a);
    }
  }

  lemma NothingYet(x: Start)
    requires |x.flat| == |x.bits| && |x.bits| > 0 && x.bits[0] && TreeOk(x.bits, x.p)
    ensures Progress(x, Now(x.flat, x.bits, x.p))
  {
    var y := Now(x.flat, x.bits, x.p);
    forall a | 0 <= a < SLOTS ensures SlotKept(x, y, a) {
    }
  }

  lemma SlotsRep(flat: seq<Block>, root: Word, i: nat, j: nat)
    requires i < NUM_POINTERS && j < NUM_POINTERS
    ensures SlotsOf(flat, root)[Leaf(i)] == TableAt(flat, root)[i]
    ensures SlotsOf(flat, root)[Data(i, j)] == TableAt(flat, SlotsOf(flat, root)[Leaf(i)])[j]
  {
    var p := SlotsOf(flat, root);
    assert p[Leaf(i)] == SlotAt(flat, root, Leaf(i));
    assert p[Data(i, j)] == SlotAt(flat, root, Data(i, j));
    assert (Data(i, j) - 129) / 128 == i && (Data(i, j) - 129) % 128 == j;
  }

  /** The outer loop starts with the tree as it is on the device. */
  lemma OuterBegin(x: Start, root: Word)
    requires |x.flat| == |x.bits| && |x.bits| > 0 && x.bits[0] && TreeOk(x.bits, x.p)
    requires root != 0 && x.p == SlotsOf(x.flat, root)
    ensures OuterInv(x, Now(x.flat, x.bits, x.p), TableAt(x.flat, root), 0)
  {
    NothingYet(x);
    forall i, j | 0 <= i < NUM_POINTERS && 0 <= j < NUM_POINTERS
      ensures x.p[Leaf(i)] == TableAt(x.flat, root)[i]
      ensures x.p[Data(i, j)] == TableAt(x.flat, x.p[Leaf(i)])[j]
    {
      SlotsRep(x.flat, root, i, j);
    }
    assert x.p[0] == SlotAt(x.flat, root, 0);
    assert forall i | 0 <= i < NUM_POINTERS :: LeafFresh(x, x.p, i);
  }

  lemma EmptyTreeInv(x: Start, y: Now)
    requires Progress(x, y) && y.p[0] != 0 && TableAt(y.flat, y.p[0]) == NoPointers()
    requires forall a | 0 < a < SLOTS :: x.p[a] == 0 && y.p[a] == 0
    ensures OuterInv(x, y, NoPointers(), 0)
  {
    assert forall i | 0 <= i < NUM_POINTERS :: LeafFresh(x, y.p, i);
    forall i, j | 0 <= i < NUM_POINTERS && 0 <= j < NUM_POINTERS
      ensures y.p[Data(i, j)] == TableAt(y.flat, y.p[Leaf(i)])[j]
    {
      assert y.p[Leaf(i)] == 0;
    }
  }

  /** Or with a fresh first-level table. */
  lemma OuterBeginNew(x: Start, root: Word)
    requires |x.flat| == |x.bits| && |x.bits| > 0 && x.bits[0] && TreeOk(x.bits, x.p)
    requires x.p == SlotsOf(x.flat, 0) && x.size > 0
    requires root < |x.bits| && !x.bits[root]
    ensures var y := Filled(Now(x.flat, x.bits, x.p), 0, root);
      root != 0 && y.p[0] == root && OuterInv(x, y, TableAt(y.flat, root), 0)
  {
    var y0 := Now(x.flat, x.bits, x.p);
    NothingYet(x);
    NoTree(x.flat);
    FillSlot(x, y0, 0, root);
    ZerosAreNoPointers();
    EmptyTreeInv(x, Filled(y0, 0, root));
  }

  /** The sector of the first-level table, made if there is none. */
  method EnsureRoot(c: Cache, m: SectorMap, d: Inode, size: nat, ghost x: Start)
    returns (ok: bool, root: Word, ghost y: Now)
    requires Mounted(c, m) && x == Begin(c.flat, m.bits, d.root, size) && TreeOk(x.bits, x.p)
    requires d.root != 0 || size > 0
    modifies c, m, m.store.words
    ensures Mounted(c, m) && |c.disk| == old(|c.disk|) && c.mark == old(c.mark)
    ensures ok ==>
      && y.flat == c.flat && y.bits == m.bits && y.p[0] == root && 0 < root < |c.disk|
      && OuterInv(x, y, TableAt(c.flat, root), 0)
    ensures !ok ==> d.root == 0 && c.flat == x.flat && m.bits == x.bits && (m.writable ==> Free(m.bits) == {})
  {
    ok, root, y := true, d.root, Now(x.flat, x.bits, x.p);
    if d.root == 0 {
      ok, root := AddSector(c, m);
      if ok {
        OuterBeginNew(x, root);
        y := Filled(y, 0, root);
      }
    } else {
      assert x.p[0] == SlotAt(x.flat, d.root, 0);
      OuterBegin(x, d.root);
    }
  }

  /** The last step: an empty file has no first-level table either. */
  method DropRoot(m: SectorMap, root: Word, size: nat, ghost x: Start, ghost y: Now)
    returns (r: Word, ghost y': Now)
    requires m.Valid() && x.size == size && y.bits == m.bits && Progress(x, y) && root != 0
    requires y.p[0] == root && y.p == SlotsOf(y.flat, root)
    requires forall a | 0 < a < SLOTS :: y.p[a] != 0 <==> Need(a, size)
    modifies m, m.store.words
    ensures m.Valid() && |m.bits| == old(|m.bits|) && |m.bits| > 0 && m.bits[0]
    ensures y'.flat == y.flat && y'.bits == m.bits && y'.p[0] == r && Resized(x, y')
  {
    r, y' := root, y;
    if size == 0 {
      EmptySlot(x, y, 0);
      FreeSector(m, root);
      r, y' := 0, Emptied(y, 0);
      NoTree(y.flat);
      assert y'.p == SlotsOf(y'.flat, 0);
    }
  }

  method ResizeFrom(c: Cache, m: SectorMap, root: Word, size: nat, ghost x: Start, ghost y: Now)
    returns (ok: bool, r: Word, ghost y': Now, ghost stop: nat)
    requires Mounted(c, m) && x.size == size && 0 < root < |c.disk|
    requires y.flat == c.flat && y.bits == m.bits && y.p[0] == root
    requires OuterInv(x, y, TableAt(c.flat, root), 0)
    modifies c, m, m.store.words
    ensures Mounted(c, m) && |c.disk| == old(|c.disk|) && c.mark == old(c.mark)
    ensures y'.flat == c.flat && y'.bits == m.bits && y'.p[0] == r
    ensures ok ==> Resized(x, y')
    ensures !ok ==> StuckAt(x, y', stop) && (m.writable ==> Free(m.bits) == {})
  {
    ok, y', stop := ResizeTables(c, m, root, size, x, y);
    r := root;
    if ok {
      r, y' := DropRoot(m, root, size, x, y');
    }
  }

  /** `inode_resize` up to its return or its rollback. */
  method Attempt(c: Cache, m: SectorMap, d: Inode, size: nat, ghost x: Start)
    returns (ok: bool, d': Inode, ghost y: Now, ghost stop: nat)
    requires Mounted(c, m) && size < 0x8000_0000 && x == Begin(c.flat, m.bits, d.root, size)
    requires TreeOk(x.bits, x.p) && Covers(x.p, d.length)
    modifies c, m, m.store.words
    ensures Mounted(c, m) && |c.disk| == old(|c.disk|) && c.mark == old(c.mark)
    ensures y.flat == c.flat && y.bits == m.bits && y.p[0] == d'.root
    ensures ok ==> Resized(x, y) && d' == d.(root := d'.root, length := size)
    ensures !ok ==> d' == d.(root := d'.root)
    ensures !ok ==> Failed(x, d, y, stop) && (m.writable ==> Free(m.bits) == {})
  {
    assert x.p[0] == SlotAt(x.flat, d.root, 0);
    if d.root == 0 && size == 0 {
      NothingAtAll(x, d);
      return true, d, Now(x.flat, x.bits, x.p), 0;
    }
    var root;
    ok, root, y := EnsureRoot(c, m, d, size, x);
    if !ok {
      return false, d, Now(x.flat, x.bits, x.p), 0;
    }
    ok, root, y, stop := ResizeFrom(c, m, root, size, x, y);
    d' := if ok then d.(root := root, length := size) else d.(root := root);
  }

  /** `inode_resize`: the file gets exactly the sectors that `size` bytes need,
      or, if an allocation fails, it is rolled back by a nested call. That call
      needs no new sector, so it cannot fail or nest again. */
  method Resize(c: Cache, m: SectorMap, d: Inode, size: nat)
    returns (ok: bool, d': Inode, ghost stop: nat)
    requires Mounted(c, m) && size < 0x8000_0000 && d.length < 0x8000_0000
    requires TreeOk(m.bits, SlotsOf(c.flat, d.root)) && Covers(SlotsOf(c.flat, d.root), d.length)
    modifies c, m, m.store.words
    ensures Mounted(c, m) && |c.disk| == old(|c.disk|) && c.mark == old(c.mark)
    ensures ok ==>
      && Resized(old(Begin(c.flat, m.bits, d.root, size)), Now(c.flat, m.bits, SlotsOf(c.flat, d'.root)))
      && d' == d.(root := d'.root, length := size)
    ensures !ok ==>
      && RolledBack(old(Begin(c.flat, m.bits, d.root, size)), d.length,
                    Now(c.flat, m.bits, SlotsOf(c.flat, d'.root)))
      && d' == d.(root := d'.root)
    ensures !ok ==>
      Loss(old(Begin(c.flat, m.bits, d.root, size)), Now(c.flat, m.bits, SlotsOf(c.flat, d'.root)), stop)
    ensures !ok && m.writable ==>
      old(|Free(m.bits)|) == |Taken(old(SlotsOf(c.flat, d.root)), size, stop)|
    ensures old(Covers(SlotsOf(c.flat, d.root), size)) ==> ok
    ensures ok ==> |Missing(old(SlotsOf(c.flat, d.root)), size)| <= old(|Free(m.bits)|)
    ensures !ok && m.writable ==> old(|Free(m.bits)|) < |Missing(old(SlotsOf(c.flat, d.root)), size)|
    decreases if Covers(SlotsOf(c.flat, d.root), size) then 0 else 1
  {
    ghost var x := Begin(c.flat, m.bits, d.root, size);
    ghost var y;
    ok, d', y, stop := Attempt(c, m, d, size, x);
    if !ok {
      ghost var q := SlotsOf(c.flat, d'.root);
      Retreat(x, d, y, q, stop);
      var again;
      ghost var none;
      again, d', none := Resize(c, m, d', d.length);
      Retreated(x, d, y, q, Now(c.flat, m.bits, SlotsOf(c.flat, d'.root)), stop);
      StoppedShort(x.p, x.size, stop);
    } else {
      ResizedFits(x, Now(c.flat, m.bits, SlotsOf(c.flat, d'.root)));
    }
  }

  ghost predicate Failed(x: Start, d: Inode, y: Now, stop: nat) {
    StuckAt(x, y, stop) || (d.root == 0 < x.size && y == Now(x.flat, x.bits, x.p) && stop == 0)
  }

  /** The nested call has a sound tree that covers the original length. */
  lemma Retreat(x: Start, d: Inode, y: Now, q: Slots, stop: nat)
    requires Failed(x, d, y, stop) && q == SlotsOf(y.flat, y.p[0])
    requires |x.flat| == |x.bits| && TreeOk(x.bits, x.p)
    requires x.p == SlotsOf(x.flat, d.root) && Covers(x.p, d.length)
    ensures !Covers(x.p, x.size)
    ensures TreeOk(y.bits, q) && Covers(q, d.length)
  {
    assert x.p[0] == SlotAt(x.flat, d.root, 0);
    if StuckAt(x, y, stop) {
      RollbackReady(x, d.length, y, q);
    } else {
      RootMissing(x, d);
    }
  }

  lemma Retreated(x: Start, d: Inode, y: Now, q: Slots, z: Now, stop: nat)
    requires Failed(x, d, y, stop) && q == SlotsOf(y.flat, y.p[0])
    requires |x.flat| == |x.bits| && TreeOk(x.bits, x.p)
    requires x.p == SlotsOf(x.flat, d.root) && Covers(x.p, d.length)
    requires Resized(Start(y.flat, y.bits, q, d.length), z)
    ensures RolledBack(x, d.length, z) && Loss(x, z, stop)
    ensures Free(y.bits) == {} ==> |Free(x.bits)| == |Taken(x.p, x.size, stop)|
  {
    assert x.p[0] == SlotAt(x.flat, d.root, 0);
    if StuckAt(x, y, stop) {
      Rollback(x, d.length, y, q, z);
      LossCount(x, d.length, y, q, z, stop);
      TakenCount(x, y, stop);
    } else {
      RootMissing(x, d);
      SameAgain(x, d, z);
    }
  }

  lemma SameAgain(x: Start, d: Inode, z: Now)
    requires d.root == 0 && d.length == 0 && x.p == SlotsOf(x.flat, 0) && TreeOk(x.bits, x.p)
    requires Resized(Start(x.flat, x.bits, x.p, 0), z)
    ensures RolledBack(x, 0, z) && Lost(x, z) == {}
  {
    NoTree(x.flat);
    forall a | 0 <= a < SLOTS ensures z.p[a] == 0 {
      assert !Need(a, 0);
    }
  }

  lemma NothingAtAll(x: Start, d: Inode)
    requires |x.flat| == |x.bits| && |x.bits| > 0 && x.bits[0] && TreeOk(x.bits, x.p)
    requires d.root == 0 && x.p == SlotsOf(x.flat, d.root) && Covers(x.p, d.length) && x.size == 0
    ensures Resized(x, Now(x.flat, x.bits, x.p)) && d.length == 0 && x.p[0] == 0
  {
    NothingYet(x);
    NoTree(x.flat);
    assert !Need(0, d.length);
  }

  lemma RootMissing(x: Start, d: Inode)
    requires |x.flat| == |x.bits| && TreeOk(x.bits, x.p)
    requires d.root == 0 && x.p == SlotsOf(x.flat, d.root) && Covers(x.p, d.length) && x.size > 0
    ensures !Covers(x.p, x.size) && d.length == 0
    ensures RolledBack(x, d.length, Now(x.flat, x.bits, x.p))
  {
    NoTree(x.flat);
    assert !Need(0, d.length) && Need(0, x.size);
  }

  // --- what the results mean ---------------------------------------------

  /** Data pointer `k` after a successful resize: present exactly when the file
      reaches into that sector, kept if it was there with its contents, and
      otherwise a sector that was free and is zero now. */
  lemma ResizedData(x: Start, y: Now, k: nat)
    requires Resized(x, y) && k < NUM_POINTERS * NUM_POINTERS
    ensures var s, r := y.p[129 + k], x.p[129 + k];
      && (s != 0 <==> k * SECTOR_SIZE < x.size)
      && (s != 0 ==> s < |y.bits| && y.bits[s])
      && (s != 0 && r != 0 ==> s == r && y.flat[s] == x.flat[s])
      && (s != 0 && r == 0 ==> !x.bits[s] && y.flat[s] == Zeros())
  {
    var a := 129 + k;
    assert SlotKept(x, y, a);
    if y.p[a] != 0 && x.p[a] != 0 {
      forall b | 0 <= b < 129 ensures x.p[b] != x.p[a] {
      }
    }
  }

  /** No two pointers of the resized file are equal, and the used sectors that
      are not the file's are the same as before. */
  lemma ResizedConserves(x: Start, y: Now, s: nat, a: nat, b: nat)
    requires Resized(x, y) && 0 < s < |x.bits| && a < b < SLOTS
    ensures y.p[a] != 0 ==> y.p[a] != y.p[b]
    ensures (y.bits[s] && !Owns(y.p, s)) <==> (x.bits[s] && !Owns(x.p, s))
    ensures x.bits[s] && !Owns(x.p, s) ==> y.flat[s] == x.flat[s]
  {
    if IsIndex(x.p, s) {
      assert Owns(x.p, s);
    }
  }

  /** Resizing to nothing, as `free_all_data_sectors` does, gives back every
      sector of the file and no other. */
  lemma ResizeToZero(x: Start, y: Now, s: nat)
    requires Resized(x, y) && x.size == 0 && 0 < s < |x.bits|
    ensures y.bits[s] <==> x.bits[s] && !Owns(x.p, s)
    ensures y.p[0] == 0
  {
    forall a | 0 <= a < SLOTS ensures y.p[a] == 0 {
      assert !Need(a, 0);
    }
  }

  /** The caller of a failed resize does not write the inode back. The inode on
      the device, with its old `root`, is still sound if and only if it was not
      an empty file with a first-level table: in that case the rollback has
      given away the table's sector. */
  lemma FailedResizeDangles(x: Start, length: nat, y: Now)
    requires TreeOk(x.bits, x.p) && x.p == SlotsOf(x.flat, x.p[0]) && Settled(x.p, length)
    requires RolledBack(x, length, y)
    ensures TreeOk(y.bits, SlotsOf(y.flat, x.p[0])) <==> length > 0 || x.p[0] == 0
  {
    var q := SlotsOf(y.flat, x.p[0]);
    assert q[0] == SlotAt(y.flat, x.p[0], 0);
    if length > 0 {
      assert Need(0, length);
      forall a | 0 <= a < SLOTS ensures y.p[a] == x.p[a] {
      }
      assert y.p[0] == x.p[0];
    } else if x.p[0] == 0 {
      NoTree(y.flat);
    } else {
      assert !Need(0, length) && !y.bits[q[0]];
    }
  }

  /** Every sector in use was in use before. */
  ghost predicate NoneLost(bits: seq<bool>, bits': seq<bool>) {
    |bits'| == |bits| && forall s | 0 <= s < |bits| && bits'[s] :: bits[s]
  }

  lemma StillOwned(x: Start, length: nat, z: Now, s: nat)
    requires RolledBack(x, length, z) && Owns(x.p, s) && s < |z.bits| && z.bits[s]
    ensures Owns(z.p, s)
  {
    var a :| 0 <= a < SLOTS && x.p[a] == s;
    assert z.p[a] == s;
  }

  lemma OwnedBefore(x: Start, length: nat, z: Now, s: nat)
    requires RolledBack(x, length, z) && TreeOk(x.bits, x.p) && Owns(z.p, s)
    ensures s < |x.bits| && x.bits[s]
  {
    var a :| 0 <= a < SLOTS && z.p[a] == s;
    assert x.p[a] == s;
  }

  lemma LostIsUsed(x: Start, length: nat, z: Now)
    requires RolledBack(x, length, z) && TreeOk(x.bits, x.p) && |x.bits| > 0 && x.bits[0]
    ensures NoneLost(x.bits, z.bits) <==> Lost(x, z) == {}
  {
    forall s | 0 < s < |x.bits| && z.bits[s] ensures s in Lost(x, z) <==> !x.bits[s] {
      if Owns(z.p, s) {
        OwnedBefore(x, length, z, s);
      } else if Owns(x.p, s) {
        StillOwned(x, length, z, s);
      }
    }
  }

  /** Whether a failed resize loses sectors, for a map whose file can be written:
      none are lost if and only if no sector was free, or only the one for a
      missing first-level table, or exactly as many as the last second-level
      table had room for. */
  lemma FailedResizeLoses(x: Start, length: nat, z: Now, stop: nat)
    requires Settled(x.p, length) && RolledBack(x, length, z) && Loss(x, z, stop)
    requires TreeOk(x.bits, x.p) && |x.bits| > 0 && x.bits[0]
    requires |Free(x.bits)| == |Taken(x.p, x.size, stop)|
    ensures NoneLost(x.bits, z.bits) <==> Harmless(|Free(x.bits)|, x.p[0], length)
  {
    LossOfSettled(x.p, length, x.size, stop);
    LostIsUsed(x, length, z);
  }

  /** The numbers of free sectors with which a failed resize loses none. */
  predicate Harmless(free: nat, root: Word, length: nat) {
    free == 0 || free == if root == 0 then 1 else Room(length)
  }
}
