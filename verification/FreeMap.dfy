/** The map of used sectors, kept in a bitmap. */
module FreeMap {
  import opened Bitmap

  const FREE_MAP_SECTOR: nat := 0
  const ROOT_DIR_SECTOR: nat := 1

  /** A run of one bit is a bit. */
  lemma OneBitRun(b: seq<bool>, s: nat, v: bool)
    ensures IsRun(b, s, 1, v) <==> s < |b| && b[s] == v
    ensures s < |b| ==> Filled(b, s, 1, v) == b[s := v]
  {
  }

  /** Setting a run and clearing it again gives back the map. */
  lemma TakeAndGiveBack(b: seq<bool>, s: nat, count: nat, v: bool)
    requires IsRun(b, s, count, v)
    ensures |Filled(b, s, count, !v)| == |b| && IsRun(Filled(b, s, count, !v), s, count, !v)
    ensures Filled(Filled(b, s, count, !v), s, count, v) == b
  {
    var b' := Filled(b, s, count, !v);
    forall i | 0 <= i < |b| ensures Filled(b', s, count, v)[i] == b[i] {
      FilledAt(b, s, count, !v, i);
      FilledAt(b', s, count, v, i);
    }
  }

  class SectorMap {
    const store: Bits

    /** The file that holds the map can always be written. */
    const writable: bool

    /** Which sectors are used. */
    ghost var bits: seq<bool>

    ghost predicate Valid()
      reads this, store, store.words
    {
      store.Valid() && bits == store.View()
    }

    /** `free_map_init`: all sectors are free but the two with fixed places. */
    constructor (sectors: nat, writable: bool)
      requires sectors >= 2
      ensures Valid() && |bits| == sectors && this.writable == writable && fresh(store) && fresh(store.words)
      ensures forall s | 0 <= s < sectors :: bits[s] <==> s == FREE_MAP_SECTOR || s == ROOT_DIR_SECTOR
    {
      var b := new Bits(sectors);
      b.Mark(FREE_MAP_SECTOR);
      b.Mark(ROOT_DIR_SECTOR);
      store, bits, this.writable := b, b.View(), writable;
    }

    /** `free_map_allocate`: the first run of `count` free sectors is taken, unless
        there is none or the map cannot be written to its file. */
    method Allocate(count: nat) returns (ok: bool, s: nat)
      requires Valid()
      modifies this, store.words
      ensures Valid() && |bits| == |old(bits)|
      ensures ok ==>
        && IsRun(old(bits), s, count, false) && (forall q | 0 <= q < s :: !IsRun(old(bits), q, count, false))
        && bits == Filled(old(bits), s, count, true)
      ensures !ok ==> bits == old(bits)
      ensures (forall q: nat :: !IsRun(old(bits), q, count, false)) ==> !ok
      ensures writable && !ok ==> forall q: nat :: !IsRun(bits, q, count, false)
    {
      ok, s := store.ScanAndFlip(0, count, false);
      if ok {
        TakeAndGiveBack(bits, s, count, false);
        var written: bool := *;
        if !written && !writable {
          store.SetMultiple(s, count, false);
          ok := false;
        }
      }
      bits := store.View();
    }

    /** `free_map_release` of sectors that are in use. */
    method Release(s: nat, count: nat)
      requires Valid() && IsRun(bits, s, count, true)
      modifies this, store.words
      ensures Valid() && |bits| == |old(bits)|
      ensures forall r | 0 <= r < |bits| :: bits[r] <==> old(bits)[r] && !(s <= r < s + count)
      ensures Filled(bits, s, count, true) == old(bits)
    {
      TakeAndGiveBack(bits, s, count, true);
      forall r | 0 <= r < |bits| ensures Filled(bits, s, count, false)[r] <==> bits[r] && !(s <= r < s + count) {
        FilledAt(bits, s, count, false, r);
      }
      store.SetMultiple(s, count, false);
      bits := store.View();
    }
  }
}
