/** What a resize that fails does not give back: the sectors that only tables
    in memory point to when the allocation fails. */
module Losses {
  import opened Sectors
  import opened BlockTree

  /** The second-level table that slot `a` is, or is in. */
  function LeafOf(a: nat): nat {
    if a == 0 then 0 else if a < 129 then a - 1 else (a - 129) / 128
  }

  /** The order in which `inode_resize` looks at the slots. */
  function Turn(a: nat): nat {
    if a == 0 then 0 else if a < 129 then 1 + 129 * LeafOf(a) else 2 + 129 * LeafOf(a) + (a - 129) % 128
  }

  /** The slots of `p` that have been filled when the allocation for `stop` fails. */
  ghost function Taken(p: Slots, size: nat, stop: nat): set<nat> {
    set a | 0 <= a < SLOTS && p[a] == 0 && Need(a, size) && Turn(a) < Turn(stop)
  }

  /** The slots that a file with slots `p` has to be given to have `size` bytes. */
  ghost function Missing(p: Slots, size: nat): set<nat> {
    set a | 0 <= a < SLOTS && p[a] == 0 && Need(a, size)
  }

  /** The device knows of a filled slot: it is the root, or in a second-level
      table that was there before and has been written since. */
  ghost predicate OnDevice(p: Slots, a: nat, stop: nat) {
    a == 0 || (129 <= a < SLOTS && LeafOf(a) < LeafOf(stop) && p[Leaf(LeafOf(a))] != 0)
  }

  /** The filled slots that the device does not know of. */
  ghost function Hidden(p: Slots, size: nat, stop: nat): set<nat> {
    set a | a in Taken(p, size, stop) && !OnDevice(p, a, stop)
  }

  /** Used sectors that belong neither to the file nor to anybody from before. */
  ghost function Lost(x: Start, y: Now): set<nat>
    requires SameSize(x, y)
  {
    set s | 0 < s < |x.bits| && y.bits[s] && !Owns(y.p, s) && !(x.bits[s] && !Owns(x.p, s))
  }

  ghost function Free(bits: seq<bool>): set<nat> {
    set s | 0 <= s < |bits| && !bits[s]
  }

  // --- counting ----------------------------------------------------------

  lemma {:induction false} ImageCount(p: Slots, slots: set<nat>, sectors: set<nat>)
    requires Distinct(p) && (forall a | a in slots :: a < SLOTS && p[a] != 0)
    requires sectors == set a | a in slots :: p[a]
    ensures |sectors| == |slots|
  {
    if a :| a in slots {
      var less := sectors - {p[a]};
      forall b | b in slots - {a} ensures p[b] in less {
        assert a < b || b < a;
      }
      assert less == set b | b in slots - {a} :: p[b];
      ImageCount(p, slots - {a}, less);
      assert |sectors| == |less| + 1;
    }
  }

  lemma ImageOf(p: Slots, slots: set<nat>, sectors: set<nat>)
    requires Distinct(p) && (forall a | a in slots :: a < SLOTS && p[a] != 0)
    requires forall a | a in slots :: p[a] in sectors
    requires forall s | s in sectors :: exists a :: a in slots && p[a] == s
    ensures |sectors| == |slots|
  {
    assert sectors == set a | a in slots :: p[a];
    ImageCount(p, slots, sectors);
  }

  ghost function Range(lo: nat, hi: nat): (r: set<nat>)
    requires lo <= hi
    ensures |r| == hi - lo && forall a :: a in r <==> lo <= a < hi
    decreases hi - lo
  {
    if lo == hi then {} else {lo} + Range(lo + 1, hi)
  }

  lemma {:induction false} PartCount(a: set<nat>, b: set<nat>)
    requires a <= b
    ensures |a| <= |b| && (|a| == |b| ==> a == b)
  {
    if x :| x in a {
      PartCount(a - {x}, b - {x});
    }
  }

  // --- the settled file --------------------------------------------------

  /** Second-level tables of a file of `length` bytes, and data sectors. */
  function Leaves(length: nat): nat { (length + LEAF_SPAN - 1) / LEAF_SPAN }
  function Datas(length: nat): nat { (length + SECTOR_SIZE - 1) / SECTOR_SIZE }

  /** How many data sectors the last second-level table has room for. */
  function Room(length: nat): (r: nat)
    ensures r < 128 && Datas(length) + r == 128 * Leaves(length)
  {
    128 * Leaves(length) - Datas(length)
  }

  /** A file as `inode_create` and successful resizes leave it: exactly the
      sectors it needs, and perhaps a first-level table while it is empty. */
  ghost predicate Settled(p: Slots, length: nat) {
    && Covers(p, length)
    && forall a | 0 < a < SLOTS :: p[a] != 0 ==> Need(a, length)
  }

  /** An allocation for slot `stop` has failed. */
  ghost predicate Stopped(p: Slots, size: nat, stop: nat) {
    stop < SLOTS && p[stop] == 0 && Need(stop, size)
  }

  lemma LeafMissing(p: Slots, length: nat, i: nat)
    requires Settled(p, length) && i < NUM_POINTERS
    ensures p[Leaf(i)] == 0 <==> Leaves(length) <= i
  {
    assert p[Leaf(i)] != 0 <==> Need(Leaf(i), length);
  }

  lemma DataMissing(p: Slots, length: nat, a: nat)
    requires Settled(p, length) && 129 <= a < SLOTS
    ensures p[a] == 0 <==> Datas(length) <= a - 129
  {
    assert p[a] != 0 <==> Need(a, length);
  }

  lemma LeafNeeded(size: nat, i: nat)
    requires i < NUM_POINTERS
    ensures Need(Leaf(i), size) <==> i < Leaves(size)
  {
  }

  lemma DataNeeded(size: nat, a: nat)
    requires 129 <= a < SLOTS
    ensures Need(a, size) <==> a - 129 < Datas(size)
  {
  }

  /** The sectors that a file whose inode has root `root` and length `length` has to
      be given to have `size` bytes. */
  function Wanting(root: Word, length: nat, size: nat): nat {
    if size <= length then 0
    else (if root == 0 then 1 else 0) + (Leaves(size) - Leaves(length)) + (Datas(size) - Datas(length))
  }

  lemma MissingSlot(p: Slots, length: nat, size: nat, a: nat)
    requires Settled(p, length) && length < size <= LEAF_SPAN * NUM_POINTERS && a < SLOTS
    ensures a in Missing(p, size) <==>
      || (a == 0 && p[0] == 0)
      || 1 + Leaves(length) <= a < 1 + Leaves(size)
      || 129 + Datas(length) <= a < 129 + Datas(size)
  {
    if 0 < a < 129 {
      LeafMissing(p, length, a - 1);
      LeafNeeded(size, a - 1);
    } else if a >= 129 {
      DataMissing(p, length, a);
      DataNeeded(size, a);
    }
  }

  /** They are as many as the missing slots. */
  lemma MissingCount(p: Slots, length: nat, size: nat)
    requires Settled(p, length) && size <= LEAF_SPAN * NUM_POINTERS
    ensures |Missing(p, size)| == Wanting(p[0], length, size)
  {
    var missing := Missing(p, size);
    if size <= length {
      assert missing == {};
    } else {
      SizesGrow(length, size);
      forall a: nat | a < SLOTS ensures a in missing <==>
        || (a == 0 && p[0] == 0)
        || 1 + Leaves(length) <= a < 1 + Leaves(size)
        || 129 + Datas(length) <= a < 129 + Datas(size)
      {
        MissingSlot(p, length, size, a);
      }
      CountSlots(missing, p[0] == 0, Leaves(length), Leaves(size), Datas(length), Datas(size));
    }
  }

  lemma SizesGrow(length: nat, size: nat)
    requires length < size <= LEAF_SPAN * NUM_POINTERS
    ensures Leaves(length) <= Leaves(size) <= NUM_POINTERS
    ensures Datas(length) <= Datas(size) <= NUM_POINTERS * NUM_POINTERS
  {
  }

  lemma CountSlots(slots: set<nat>, root: bool, l0: nat, l1: nat, d0: nat, d1: nat)
    requires l0 <= l1 <= 128 && d0 <= d1 <= SLOTS - 129
    requires forall a :: a in slots <==> (a == 0 && root) || 1 + l0 <= a < 1 + l1 || 129 + d0 <= a < 129 + d1
    ensures |slots| == (if root then 1 else 0) + (l1 - l0) + (d1 - d0)
  {
    var first, leaves, datas := if root then {0} else {}, Range(1 + l0, 1 + l1), Range(129 + d0, 129 + d1);
    CountParts(slots, first, leaves, datas);
  }

  lemma CountParts(slots: set<nat>, a: set<nat>, b: set<nat>, c: set<nat>)
    requires (forall x :: x in slots <==> x in a || x in b || x in c) && a !! b && a !! c && b !! c
    ensures |slots| == |a| + |b| + |c|
  {
    assert slots == a + b + c;
  }

  /** Where an allocation fails, a slot is missing that has not been filled. */
  lemma StoppedShort(p: Slots, size: nat, stop: nat)
    requires Stopped(p, size, stop)
    ensures |Taken(p, size, stop)| < |Missing(p, size)|
  {
    assert stop in Missing(p, size) && stop !in Taken(p, size, stop);
    PartCount(Taken(p, size, stop), Missing(p, size) - {stop});
  }

  /** What a file without a first-level table loses. */
  lemma LossOfNew(p: Slots, size: nat, stop: nat)
    requires Settled(p, 0) && p[0] == 0 && Stopped(p, size, stop)
    ensures Hidden(p, size, stop) == {} <==> |Taken(p, size, stop)| <= 1
  {
    var t := Taken(p, size, stop);
    if stop == 0 {
      assert t == {};
    } else if stop == Leaf(0) {
      assert t == {0};
    } else {
      LeafMissing(p, 0, 0);
      assert Leaf(0) in t && 0 in t && Leaf(0) in Hidden(p, size, stop);
      PartCount({0, Leaf(0)}, t);
    }
  }

  /** The data slots that the last second-level table has room for. */
  ghost function LastRoom(length: nat): (r: set<nat>)
    ensures |r| == Room(length)
  {
    var n := Datas(length);
    Range(129 + n, 129 + n + Room(length))
  }

  /** The allocation failed before the first new second-level table. */
  lemma LossInRoom(p: Slots, length: nat, size: nat, stop: nat)
    requires Settled(p, length) && p[0] != 0 && Stopped(p, size, stop)
    requires LeafOf(stop) < Leaves(length)
    ensures Hidden(p, size, stop) == Taken(p, size, stop) && |Taken(p, size, stop)| < Room(length)
  {
    var t, r := Taken(p, size, stop), LastRoom(length);
    forall a | a in t ensures a in r && LeafOf(a) == LeafOf(stop) {
      InRoom(p, length, stop);
      InRoom(p, length, a);
    }
    InRoom(p, length, stop);
    PartCount(t, r);
    assert stop !in t;
  }

  lemma InRoom(p: Slots, length: nat, a: nat)
    requires Settled(p, length) && p[0] != 0 && a < SLOTS && p[a] == 0 && LeafOf(a) < Leaves(length)
    ensures a in LastRoom(length) && LeafOf(a) == Leaves(length) - 1
  {
    if a < 129 {
      LeafMissing(p, length, a - 1);
    } else {
      DataMissing(p, length, a);
    }
  }

  /** Slots of earlier second-level tables come earlier. */
  lemma EarlierLeaf(a: nat, b: nat)
    requires 0 < a < SLOTS && 0 < b < SLOTS && LeafOf(a) < LeafOf(b)
    ensures Turn(a) < Turn(b) && Pos(a) < Pos(b)
  {
  }

  /** And a table comes before its data. */
  lemma LeafFirst(i: nat, b: nat)
    requires 0 < b < SLOTS && i <= LeafOf(b) && b != Leaf(i)
    ensures Leaf(i) < SLOTS && LeafOf(Leaf(i)) == i && Turn(Leaf(i)) < Turn(b) && Pos(Leaf(i)) <= Pos(b)
  {
  }

  lemma RoomBelow(length: nat, a: nat)
    requires a in LastRoom(length)
    ensures 129 + Datas(length) <= a && LeafOf(a) < Leaves(length)
  {
  }

  /** A later failure comes after the room has been used up. */
  lemma RoomTaken(p: Slots, length: nat, size: nat, stop: nat, a: nat)
    requires Settled(p, length) && Stopped(p, size, stop) && stop != 0
    requires Leaves(length) <= LeafOf(stop) && a in LastRoom(length)
    ensures a in Taken(p, size, stop)
  {
    RoomBelow(length, a);
    DataMissing(p, length, a);
    EarlierLeaf(a, stop);
  }

  /** What is taken before the first new second-level table is needed. */
  lemma TakenInRoom(p: Slots, length: nat, size: nat, stop: nat, a: nat)
    requires Settled(p, length) && p[0] != 0 && Leaves(length) < NUM_POINTERS && stop == Leaf(Leaves(length))
    requires a in Taken(p, size, stop)
    ensures a in LastRoom(length) && OnDevice(p, a, stop)
  {
    InRoom(p, length, a);
    LeafMissing(p, length, LeafOf(a));
  }

  /** The allocation failed for the first new second-level table. */
  lemma LossAtLeaf(p: Slots, length: nat, size: nat, stop: nat)
    requires Settled(p, length) && p[0] != 0 && Stopped(p, size, stop)
    requires Leaves(length) < NUM_POINTERS && stop == Leaf(Leaves(length))
    ensures Hidden(p, size, stop) == {} && |Taken(p, size, stop)| == Room(length)
  {
    var t, r := Taken(p, size, stop), LastRoom(length);
    forall a | a in t ensures a in r && OnDevice(p, a, stop) {
      TakenInRoom(p, length, size, stop, a);
    }
    forall a | a in r ensures a in t {
      RoomTaken(p, length, size, stop, a);
    }
    assert t == r;
  }

  /** The allocation failed after it. */
  lemma LossBeyond(p: Slots, length: nat, size: nat, stop: nat)
    requires Settled(p, length) && p[0] != 0 && Stopped(p, size, stop)
    requires Leaves(length) <= LeafOf(stop) && stop != Leaf(Leaves(length))
    ensures Hidden(p, size, stop) != {} && |Taken(p, size, stop)| > Room(length)
  {
    var t, r, l := Taken(p, size, stop), LastRoom(length), Leaf(Leaves(length));
    LeafFirst(Leaves(length), stop);
    LeafMissing(p, length, Leaves(length));
    assert l in t && l in Hidden(p, size, stop);
    forall a | a in r ensures a in t {
      RoomTaken(p, length, size, stop, a);
    }
    assert l < 129 && l !in r;
    PartCount(r + {l}, t);
  }

  /** Nothing is lost if and only if the sectors taken before the failure are
      none, or the first-level table, or exactly those that the last second-level
      table had room for. */
  lemma LossOfSettled(p: Slots, length: nat, size: nat, stop: nat)
    requires Settled(p, length) && Stopped(p, size, stop)
    ensures var n := |Taken(p, size, stop)|;
      Hidden(p, size, stop) == {} <==> n == 0 || n == if p[0] == 0 then 1 else Room(length)
  {
    if p[0] == 0 {
      assert !Need(0, length);
      LossOfNew(p, size, stop);
    } else if LeafOf(stop) < Leaves(length) {
      LossInRoom(p, length, size, stop);
    } else if stop == Leaf(Leaves(length)) {
      LossAtLeaf(p, length, size, stop);
    } else {
      LossBeyond(p, length, size, stop);
    }
  }

  /** Growing an empty file with two sectors free: the second-level table is lost. */
  lemma LostTable()
    ensures var none: Slots := seq(SLOTS, _ => 0);
      && Stopped(none, 1, Data(0, 0)) && |Taken(none, 1, Data(0, 0))| == 2
      && Hidden(none, 1, Data(0, 0)) == {Leaf(0)}
  {
    var none: Slots := seq(SLOTS, _ => 0);
    assert Taken(none, 1, Data(0, 0)) == {0, Leaf(0)};
  }
}
