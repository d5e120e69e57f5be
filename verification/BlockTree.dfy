/** The two-level index of a file, as a list of pointer slots: the sector of the
    first-level table, the 128 second-level tables, and the 128 * 128 data
    sectors. A slot that holds 0 points nowhere.

    Resizing a file is a series of slot changes. This module says what each kind
    of change keeps; `InodeResize` runs the loops. */
module BlockTree {
  import opened Sectors

  const SLOTS: nat := 1 + 128 + 128 * 128
  const LEAF_SPAN: nat := SECTOR_SIZE * NUM_POINTERS

  type Slots = p: seq<Word> | |p| == SLOTS witness seq(SLOTS, _ => 0)

  function Leaf(i: nat): nat { 1 + i }
  function Data(i: nat, j: nat): nat { 129 + 128 * i + j }

  /** The file position from which on slot `a` is needed. */
  function Pos(a: nat): nat {
    if a == 0 then 0
    else if a < 129 then LEAF_SPAN * (a - 1)
    else SECTOR_SIZE * (a - 129)
  }

  predicate Need(a: nat, size: nat) { Pos(a) < size }

  /** The table in sector `s`, or an empty one. */
  function TableAt(flat: seq<Block>, s: nat): Table {
    if 0 < s < |flat| then Pointers(flat[s]) else NoPointers()
  }

  function SlotAt(flat: seq<Block>, root: Word, a: nat): Word
    requires a < SLOTS
  {
    if a == 0 then root
    else if a < 129 then TableAt(flat, root)[a - 1]
    else TableAt(flat, TableAt(flat, root)[(a - 129) / 128])[(a - 129) % 128]
  }

  /** The slots of the file whose first-level table is in sector `root`. */
  function SlotsOf(flat: seq<Block>, root: Word): Slots {
    seq(SLOTS, a requires 0 <= a < SLOTS => SlotAt(flat, root, a))
  }

  /** No sector is pointed to twice. */
  ghost predicate Distinct(p: Slots) {
    forall a, b | 0 <= a < b < SLOTS :: p[a] != 0 ==> p[a] != p[b]
  }

  ghost predicate Owns(p: Slots, s: nat) {
    s != 0 && s in p
  }

  /** Every sector pointed to is marked used, and no sector twice. */
  ghost predicate TreeOk(bits: seq<bool>, p: Slots) {
    && Distinct(p)
    && forall a | 0 <= a < SLOTS && p[a] != 0 :: p[a] < |bits| && bits[p[a]]
  }

  /** A slot points somewhere exactly when a file of `size` bytes needs it. */
  ghost predicate Exact(p: Slots, size: nat) {
    forall a | 0 <= a < SLOTS :: p[a] != 0 <==> Need(a, size)
  }

  /** A file of `size` bytes has all the sectors it needs. */
  ghost predicate Covers(p: Slots, size: nat) {
    forall a | 0 <= a < SLOTS && Need(a, size) :: p[a] != 0
  }

  // --- progress of a resize ----------------------------------------------

  /** Where the resize started, and the size it aims at. */
  datatype Start = Start(flat: seq<Block>, bits: seq<bool>, p: Slots, size: nat)

  /** Where it is now. */
  datatype Now = Now(flat: seq<Block>, bits: seq<bool>, p: Slots)

  ghost predicate SameSize(x: Start, y: Now) {
    |x.flat| == |x.bits| == |y.flat| == |y.bits|
  }

  /** A slot that changed was filled because it is needed, with a sector that was
      free and is zeroed if it is for data; or it was emptied because it is not. */
  ghost predicate SlotKept(x: Start, y: Now, a: nat)
    requires a < SLOTS
  {
    || y.p[a] == x.p[a]
    || (y.p[a] == 0 && !Need(a, x.size))
    || (&& x.p[a] == 0 && Need(a, x.size)
        && y.p[a] < |x.bits| && !x.bits[y.p[a]]
        && (a >= 129 && y.p[a] < |y.flat| ==> y.flat[y.p[a]] == Zeros()))
  }

  ghost predicate SlotsKept(x: Start, y: Now) {
    forall a | 0 <= a < SLOTS :: SlotKept(x, y, a)
  }

  /** Conservation: which used sectors do not belong to the file never changes. */
  ghost predicate RestKept(x: Start, y: Now)
    requires SameSize(x, y)
  {
    forall s | 0 < s < |x.bits| ::
      (y.bits[s] && !Owns(y.p, s)) <==> (x.bits[s] && !Owns(x.p, s))
  }

  ghost predicate IsIndex(p: Slots, s: nat) {
    s != 0 && exists a :: 0 <= a < 129 && p[a] == s
  }

  /** Used sectors other than the file's own tables keep their contents. */
  ghost predicate DataKept(x: Start, y: Now)
    requires SameSize(x, y)
  {
    forall s | 0 <= s < |x.flat| && x.bits[s] && !IsIndex(x.p, s) :: y.flat[s] == x.flat[s]
  }

  ghost predicate Progress(x: Start, y: Now) {
    && SameSize(x, y) && |y.bits| > 0 && y.bits[0] && x.bits[0]
    && TreeOk(x.bits, x.p) && TreeOk(y.bits, y.p)
    && SlotsKept(x, y) && RestKept(x, y) && DataKept(x, y)
  }

  /** Slots have been changed only up to position `limit`. */
  ghost predicate ChangedUpTo(x: Start, p: Slots, limit: nat) {
    forall a: nat | Changed(x, p, a) :: Pos(a) <= limit
  }

  predicate Changed(x: Start, p: Slots, a: nat) { a < SLOTS && p[a] != x.p[a] }

  /** While changes are confined to needed positions, nothing has been released. */
  lemma NothingReleased(x: Start, y: Now, limit: nat)
    requires Progress(x, y) && ChangedUpTo(x, y.p, limit) && limit < x.size
    ensures forall s | 0 <= s < |x.bits| && x.bits[s] :: y.bits[s]
    ensures forall a | 0 <= a < SLOTS && x.p[a] != 0 :: y.p[a] == x.p[a]
  {
    forall a | 0 <= a < SLOTS && x.p[a] != 0 ensures y.p[a] == x.p[a] {
      assert SlotKept(x, y, a);
    }
    forall s | 0 < s < |x.bits| && x.bits[s] ensures y.bits[s] {
      if Owns(x.p, s) {
        var a :| 0 <= a < SLOTS && x.p[a] == s;
        assert y.p[a] == s;
      }
    }
  }

  // --- one slot at a time ------------------------------------------------

  lemma OwnsFilled(p: Slots, a: nat, s: Word, r: nat)
    requires a < SLOTS && p[a] == 0 && s != 0
    ensures Owns(p[a := s], r) <==> Owns(p, r) || r == s
  {
    var q := p[a := s];
    assert q[a] == s;
    if r != 0 && r in p {
      var b :| 0 <= b < SLOTS && p[b] == r;
      assert q[b] == r;
    }
  }

  lemma OwnsEmptied(p: Slots, a: nat, r: nat)
    requires a < SLOTS && Distinct(p)
    ensures Owns(p[a := 0], r) <==> Owns(p, r) && r != p[a]
  {
    var q := p[a := 0];
    if r != 0 && r in p && r != p[a] {
      var b :| 0 <= b < SLOTS && p[b] == r;
      assert q[b] == r;
    }
    if r != 0 && r in q {
      var b :| 0 <= b < SLOTS && q[b] == r;
      assert p[b] == r && b != a;
      assert p[a] != r by { assert a < b || b < a; }
    }
  }

  /** A needed slot is given a sector that is free now and was free before. */
  ghost predicate CanFill(x: Start, y: Now, a: nat, s: Word) {
    && Progress(x, y) && a < SLOTS && y.p[a] == 0 && x.p[a] == 0 && Need(a, x.size)
    && s < |y.bits| && !y.bits[s] && !x.bits[s]
  }

  function Filled(y: Now, a: nat, s: Word): Now
    requires a < SLOTS && s < |y.bits| && s < |y.flat|
  {
    Now(y.flat[s := Zeros()], y.bits[s := true], y.p[a := s])
  }

  lemma FillTree(x: Start, y: Now, a: nat, s: Word)
    requires CanFill(x, y, a, s)
    ensures TreeOk(Filled(y, a, s).bits, Filled(y, a, s).p)
    ensures !Owns(y.p, s) && !Owns(x.p, s) && s != 0
  {
  }

  lemma FillSlots(x: Start, y: Now, a: nat, s: Word)
    requires CanFill(x, y, a, s)
    ensures SlotsKept(x, Filled(y, a, s))
  {
    var y' := Filled(y, a, s);
    forall b | 0 <= b < SLOTS ensures SlotKept(x, y', b) {
      assert SlotKept(x, y, b);
    }
  }

  lemma FillRest(x: Start, y: Now, a: nat, s: Word)
    requires CanFill(x, y, a, s)
    ensures RestKept(x, Filled(y, a, s))
  {
    FillTree(x, y, a, s);
    forall r | 0 < r < |x.bits|
      ensures (Filled(y, a, s).bits[r] && !Owns(Filled(y, a, s).p, r)) <==> (x.bits[r] && !Owns(x.p, r))
    {
      OwnsFilled(y.p, a, s, r);
    }
  }

  lemma FillSlot(x: Start, y: Now, a: nat, s: Word)
    requires CanFill(x, y, a, s)
    ensures Progress(x, Filled(y, a, s))
  {
    FillTree(x, y, a, s);
    FillSlots(x, y, a, s);
    FillRest(x, y, a, s);
  }

  function Emptied(y: Now, a: nat): Now
    requires a < SLOTS && y.p[a] < |y.bits|
  {
    Now(y.flat, y.bits[y.p[a] := false], y.p[a := 0])
  }

  /** A slot that is not needed gives its sector back. */
  lemma EmptySlot(x: Start, y: Now, a: nat)
    requires Progress(x, y) && a < SLOTS && y.p[a] != 0 && !Need(a, x.size)
    ensures y.p[a] < |y.bits| && Progress(x, Emptied(y, a))
  {
    var y' := Emptied(y, a);
    forall b | 0 <= b < SLOTS ensures SlotKept(x, y', b) {
      assert SlotKept(x, y, b);
    }
    EmptyTree(y.bits, y.p, a);
    forall r | 0 < r < |x.bits|
      ensures (y'.bits[r] && !Owns(y'.p, r)) <==> (x.bits[r] && !Owns(x.p, r))
    {
      OwnsEmptied(y.p, a, r);
      if r == y.p[a] {
        EmptiedWasOwned(x, y, a);
      }
    }
  }

  lemma EmptyTree(bits: seq<bool>, p: Slots, a: nat)
    requires TreeOk(bits, p) && a < SLOTS && p[a] != 0
    ensures TreeOk(bits[p[a] := false], p[a := 0])
  {
    var q := p[a := 0];
    forall b | 0 <= b < SLOTS && q[b] != 0 ensures q[b] < |bits| && bits[p[a] := false][q[b]] {
      assert a < b || b < a;
    }
  }

  /** The sector of an unneeded slot was the file's from the start. */
  lemma EmptiedWasOwned(x: Start, y: Now, a: nat)
    requires Progress(x, y) && a < SLOTS && y.p[a] != 0 && !Need(a, x.size)
    ensures Owns(x.p, y.p[a])
  {
    assert SlotKept(x, y, a);
    assert x.p[a] == y.p[a];
  }

  /** Writing a sector that holds one of the file's tables. */
  lemma WriteTable(x: Start, y: Now, a: nat, b: Block)
    requires Progress(x, y) && a < 129 && y.p[a] != 0
    ensures y.p[a] < |y.flat| && Progress(x, Now(y.flat[y.p[a] := b], y.bits, y.p))
  {
    var y' := Now(y.flat[y.p[a] := b], y.bits, y.p);
    assert SlotKept(x, y, a);
    forall c | 0 <= c < SLOTS ensures SlotKept(x, y', c) {
      assert SlotKept(x, y, c);
      if c >= 129 && y.p[c] != 0 {
        assert y.p[a] != y.p[c];
      }
    }
    forall s | 0 <= s < |x.flat| && x.bits[s] && !IsIndex(x.p, s) ensures y'.flat[s] == x.flat[s] {
      assert s != y.p[a];
    }
  }
}
